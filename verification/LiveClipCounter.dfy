// LiveClipCounter of app/services/live_clip_counter.py as the source has it: an
// object whose process_frame updates the open window in place and drives a
// PlacementCounter object.
module LiveClipCounter {
  import opened Prelude
  import opened PlacementSpec
  import opened LiveClipSpec
  import P = PlacementCounter

  class LiveClipCounter {
    const settings: Settings
    const counter: P.PlacementCounter
    var pending: Option<Pending>
    var lastTriggerSec: Option<real>
    var lastCloseSec: Option<real>
    var frameIndex: int
    var consecutiveMotion: int
    var totalCount: int

    ghost var M: Live

    ghost predicate Valid()
      reads this, counter
    {
      && counter.Valid() && counter.debounceSec == settings.debounce
      && M.counter == counter.Value() && M.pending == pending
      && M.lastTrigger == lastTriggerSec && M.lastClose == lastCloseSec
      && M.frames == frameIndex && M.streak == consecutiveMotion && M.total == totalCount
    }

    constructor (settings: Settings)
      ensures Valid() && fresh(counter) && this.settings == settings && M == START
    {
      this.settings := settings;
      counter := new P.PlacementCounter(settings.debounce);
      pending, lastTriggerSec, lastCloseSec := None, None, None;
      frameIndex, consecutiveMotion, totalCount := 0, 0, 0;
      M := START;
    }

    method ProcessFrame(f: Frame) returns (counts: seq<Count>)
      requires Valid()
      modifies this, counter
      ensures Valid() && M == Process(settings, old(M), f)
      ensures M.counts == old(M).counts + counts
    {
      hide Close;
      frameIndex := frameIndex + 1;
      if f.triggered {
        consecutiveMotion := consecutiveMotion + 1;
      } else {
        consecutiveMotion := 0;
      }
      M := M.(frames := frameIndex, streak := consecutiveMotion);
      counts := [];
      if pending.None? {
        if f.triggered {
          OpenOrExtend(f.time);
          consecutiveMotion := 0;
          M := M.(streak := 0);
        }
      } else if f.triggered && consecutiveMotion >= 2 {
        OpenOrExtend(f.time);
      } else if CooldownElapsed(f.time) {
        counts := CloseAndJudge(f.time, f.asserts);
      }
      if counts != [] {
        totalCount := counts[|counts| - 1].number;
      }
    }

    method OpenOrExtend(time: real)
      requires Valid()
      modifies this`pending, this`lastTriggerSec, this`M
      ensures Valid() && M == LiveClipSpec.OpenOrExtend(settings, old(M), time)
    {
      if lastCloseSec.Some? && time - lastCloseSec.value < settings.minGap {
        return;
      }
      M := LiveClipSpec.OpenOrExtend(settings, M, time);
      if pending.None? {
        pending := Some(Pending(time - settings.bracket, time));
      } else {
        pending := Some(pending.value.(lastTrigger := time));
      }
      lastTriggerSec := Some(time);
    }

    predicate CooldownElapsed(current: real)
      reads this
    {
      lastTriggerSec.None? || current - lastTriggerSec.value >= settings.cooldown
    }

    // Leaves Valid but for the total, which the caller sets from the counts.
    method CloseAndJudge(quiet: real, asserts: bool) returns (counts: seq<Count>)
      requires Valid() && pending.Some?
      modifies this`pending, this`lastTriggerSec, this`lastCloseSec, this`M, counter
      ensures M == Close(settings, old(M), old(M).pending.value, quiet, asserts)
      ensures M.counts == old(M).counts + counts
      ensures counter.Valid() && M.counter == counter.Value() && M.pending == pending
      ensures M.lastTrigger == lastTriggerSec && M.lastClose == lastCloseSec
      ensures M.frames == frameIndex && M.streak == consecutiveMotion
      ensures M.total == if counts != [] then counts[|counts| - 1].number else totalCount
    {
      hide Feed, CandidateId, P.PlacementCounter.Value, P.PlacementCounter.Valid;
      var window := pending.value;
      pending := None;
      lastTriggerSec := None;
      lastCloseSec := Some(quiet);
      var start := MaxReal(0.0, window.firstTrigger);
      var end := MinReal(window.lastTrigger + settings.bracket, quiet);
      var center := (start + end) / 2.0;
      var judged := counter.Update(Verdict(center, asserts, CandidateId(frameIndex)));
      var calm := counter.Update(Verdict(quiet, false, ""));
      counts := judged + calm;
      M := Close(settings, M, window, quiet, asserts);
    }

    method Flush(asserts: bool) returns (counts: seq<Count>)
      requires Valid()
      modifies this, counter
      ensures Valid() && M == Flushed(settings, old(M), asserts)
      ensures M.counts == old(M).counts + counts
    {
      hide Close, PlacementSpec.Finalize, P.PlacementCounter.Value, P.PlacementCounter.Valid;
      counts := [];
      if pending.Some? {
        counts := CloseAndJudge(pending.value.lastTrigger, asserts);
      }
      ghost var m1 := M;
      var last := counter.Finalize();
      counts := counts + last;
      if counts != [] {
        totalCount := counts[|counts| - 1].number;
      }
      M := Flushed(settings, old(M), asserts);
      assert M.counts == m1.counts + last;
    }
  }

  // The settings the source's constructor checks, in its order.
  method Create(settings: Settings, sampleStride: int, threshold: real, modelPath: string)
    returns (r: Result<LiveClipCounter>)
    ensures r.Success? <==> Accepted(settings) && sampleStride > 0 && 0.0 < threshold < 1.0 && modelPath != ""
    ensures r.Success? ==> fresh(r.value) && r.value.Valid() && r.value.settings == settings && r.value.M == START
  {
    if settings.bracket <= 0.0 {
      return Failure("bracket_sec must be positive");
    }
    if sampleStride <= 0 {
      return Failure("sample_stride must be positive");
    }
    if !(0.0 < threshold < 1.0) {
      return Failure("pixel_change_threshold must be in (0, 1)");
    }
    if settings.minGap < 0.0 {
      return Failure("min_candidate_gap_sec must be non-negative");
    }
    if modelPath == "" {
      return Failure("model_path is required for clip judging");
    }
    if settings.debounce <= 0.0 {
      return Failure("debounce_sec must be positive");
    }
    var counter := new LiveClipCounter(settings);
    r := Success(counter);
  }
}
