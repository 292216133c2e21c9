// The windows of a live run, said of the frames alone: when they open, what
// extends them, when they close, and the verdicts that are fed for them.
module LiveClipWindows {
  import opened Prelude
  import opened PlacementSpec
  import opened PlacementRuns
  import opened LiveClipSpec

  // The window that frame open opened and frame close closed.
  datatype Window = Window(open: nat, close: nat)

  // When the last window closed, if one did.
  function LastClose(frames: seq<Frame>, ws: seq<Window>): Option<real> {
    if ws != [] && ws[|ws| - 1].close < |frames| then Some(frames[ws[|ws| - 1].close].time) else None
  }

  predicate TooSoon(cfg: Settings, since: Option<real>, time: real) {
    since.Some? && time - since.value < cfg.minGap
  }

  predicate Opens(cfg: Settings, frames: seq<Frame>, since: Option<real>, k: nat)
    requires k < |frames|
  {
    frames[k].triggered && !TooSoon(cfg, since, frames[k].time)
  }

  // Motion in two frames in a row, not counting the frame that opened the window.
  predicate Sustained(frames: seq<Frame>, open: nat, k: nat)
    requires k < |frames|
  {
    k > open + 1 && frames[k - 1].triggered && frames[k].triggered
  }

  // The time of the last frame up to k that opened or extended the window.
  function LastMotion(cfg: Settings, frames: seq<Frame>, since: Option<real>, open: nat, k: nat): real
    requires open <= k < |frames|
  {
    if k == open then frames[open].time
    else if Sustained(frames, open, k) && !TooSoon(cfg, since, frames[k].time) then frames[k].time
    else LastMotion(cfg, frames, since, open, k - 1)
  }

  // A frame without sustained motion, late enough after the last motion.
  predicate Closes(cfg: Settings, frames: seq<Frame>, since: Option<real>, open: nat, k: nat)
    requires open < k < |frames|
  {
    !Sustained(frames, open, k) && frames[k].time - LastMotion(cfg, frames, since, open, k - 1) >= cfg.cooldown
  }

  // From frame from on nothing opens a window before frame open.
  ghost predicate FirstToOpen(cfg: Settings, frames: seq<Frame>, since: Option<real>, from: nat, open: nat) {
    forall k :: from <= k < open && k < |frames| ==> !Opens(cfg, frames, since, k)
  }

  // Nothing closes the window before frame end.
  ghost predicate StaysOpen(cfg: Settings, frames: seq<Frame>, since: Option<real>, open: nat, end: nat) {
    forall k :: open < k < end && k < |frames| ==> !Closes(cfg, frames, since, open, k)
  }

  ghost predicate IsOpening(cfg: Settings, frames: seq<Frame>, ws: seq<Window>, open: nat) {
    && Next(ws) <= open < |frames|
    && Opens(cfg, frames, LastClose(frames, ws), open)
    && FirstToOpen(cfg, frames, LastClose(frames, ws), Next(ws), open)
  }

  // The first frame that may open another window.
  function Next(ws: seq<Window>): nat {
    if ws == [] then 0 else ws[|ws| - 1].close + 1
  }

  // ws are windows of the frames, each the first that could follow the one before.
  ghost predicate AreWindows(cfg: Settings, frames: seq<Frame>, ws: seq<Window>) {
    if ws == [] then true
    else
      var before := ws[..|ws| - 1];
      var w := ws[|ws| - 1];
      && AreWindows(cfg, frames, before)
      && IsOpening(cfg, frames, before, w.open)
      && w.open < w.close < |frames|
      && Closes(cfg, frames, LastClose(frames, before), w.open, w.close)
      && StaysOpen(cfg, frames, LastClose(frames, before), w.open, w.close)
  }

  // ws are all the windows that closed within the first n frames; open is the
  // frame that opened one since.
  ghost predicate Windows(cfg: Settings, frames: seq<Frame>, n: nat, ws: seq<Window>, open: Option<nat>) {
    && AreWindows(cfg, frames, ws) && Next(ws) <= n <= |frames|
    && (open.None? ==> FirstToOpen(cfg, frames, LastClose(frames, ws), Next(ws), n))
    && (open.Some? ==>
          && open.value < n && IsOpening(cfg, frames, ws, open.value)
          && StaysOpen(cfg, frames, LastClose(frames, ws), open.value, n))
  }

  // From one bracket before the opening, or 0, to one bracket after the last
  // motion, or the calm if that comes first.
  function Middle(cfg: Settings, opening: real, motion: real, calm: real): real {
    (MaxReal(0.0, opening - cfg.bracket) + MinReal(motion + cfg.bracket, calm)) / 2.0
  }

  // Each window's verdict is the judge's answer at the frame that closed it; the
  // calm that closed it follows.
  function VerdictsOf(cfg: Settings, frames: seq<Frame>, ws: seq<Window>): seq<Verdict> {
    if ws == [] then []
    else
      var before := ws[..|ws| - 1];
      var w := ws[|ws| - 1];
      if w.open < w.close < |frames| then
        var motion := LastMotion(cfg, frames, LastClose(frames, before), w.open, w.close - 1);
        VerdictsOf(cfg, frames, before)
        + [Verdict(Middle(cfg, frames[w.open].time, motion, frames[w.close].time),
                   frames[w.close].asserts, CandidateId(w.close + 1)),
           Verdict(frames[w.close].time, false, "")]
      else VerdictsOf(cfg, frames, before)
  }

  // ----- a run has these windows and feeds these verdicts -----

  ghost predicate Watches(cfg: Settings, frames: seq<Frame>, n: nat, ws: seq<Window>, open: Option<nat>, s: Live) {
    && Windows(cfg, frames, n, ws, open)
    && s.frames == n && s.verdicts == VerdictsOf(cfg, frames, ws)
    && s.windows == |ws| + (if open.Some? then 1 else 0)
    && s.lastClose == LastClose(frames, ws)
    && (if open.None? then s.pending.None? && s.lastTrigger.None?
        else
          var motion := LastMotion(cfg, frames, LastClose(frames, ws), open.value, n - 1);
          && s.pending == Some(Pending(frames[open.value].time - cfg.bracket, motion))
          && s.lastTrigger == Some(motion) && s.streak >= 0
          && (s.streak >= 1 <==> n - 1 > open.value && frames[n - 1].triggered))
  }

  lemma StaysClosed(cfg: Settings, frames: seq<Frame>, n: nat, ws: seq<Window>, s: Live)
    requires Watches(cfg, frames, n, ws, None, s) && n < |frames|
    requires !Opens(cfg, frames, LastClose(frames, ws), n)
    ensures Watches(cfg, frames, n + 1, ws, None, Process(cfg, s, frames[n]))
  {
    hide VerdictsOf, AreWindows;
  }

  lemma OpensNow(cfg: Settings, frames: seq<Frame>, n: nat, ws: seq<Window>, s: Live)
    requires Watches(cfg, frames, n, ws, None, s) && n < |frames|
    requires Opens(cfg, frames, LastClose(frames, ws), n)
    ensures Watches(cfg, frames, n + 1, ws, Some(n), Process(cfg, s, frames[n]))
  {
    hide VerdictsOf, AreWindows;
  }

  lemma GoesOn(cfg: Settings, frames: seq<Frame>, n: nat, ws: seq<Window>, open: nat, s: Live)
    requires Watches(cfg, frames, n, ws, Some(open), s) && n < |frames|
    requires !Closes(cfg, frames, LastClose(frames, ws), open, n)
    ensures Watches(cfg, frames, n + 1, ws, Some(open), Process(cfg, s, frames[n]))
  {
    hide VerdictsOf, AreWindows, IsOpening;
  }

  lemma ClosesNow(cfg: Settings, frames: seq<Frame>, n: nat, ws: seq<Window>, open: nat, s: Live)
    requires Watches(cfg, frames, n, ws, Some(open), s) && n < |frames|
    requires Closes(cfg, frames, LastClose(frames, ws), open, n)
    ensures Watches(cfg, frames, n + 1, ws + [Window(open, n)], None, Process(cfg, s, frames[n]))
  {
    hide IsOpening, Close, AreWindows, VerdictsOf, CandidateId, Middle;
    OneMoreWindow(cfg, frames, n, ws, open);
    ClosedVerdicts(cfg, s.(frames := n + 1, streak := if frames[n].triggered then s.streak + 1 else 0),
                   s.pending.value, frames[n].time, frames[n].asserts);
  }

  lemma OneMoreWindow(cfg: Settings, frames: seq<Frame>, n: nat, ws: seq<Window>, open: nat)
    requires Windows(cfg, frames, n, ws, Some(open)) && n < |frames|
    requires Closes(cfg, frames, LastClose(frames, ws), open, n)
    ensures var more := ws + [Window(open, n)];
      var motion := LastMotion(cfg, frames, LastClose(frames, ws), open, n - 1);
      && Windows(cfg, frames, n + 1, more, None) && LastClose(frames, more) == Some(frames[n].time)
      && VerdictsOf(cfg, frames, more)
         == VerdictsOf(cfg, frames, ws)
            + [Verdict(Middle(cfg, frames[open].time, motion, frames[n].time), frames[n].asserts, CandidateId(n + 1)),
               Verdict(frames[n].time, false, "")]
  {
    hide IsOpening, Closes, CandidateId, Middle;
    var more := ws + [Window(open, n)];
    assert more[..|more| - 1] == ws;
  }

  lemma ClosedVerdicts(cfg: Settings, s: Live, p: Pending, quiet: real, asserts: bool)
    ensures var s' := Close(cfg, s, p, quiet, asserts);
      && s'.verdicts == s.verdicts
                        + [Verdict(Middle(cfg, p.firstTrigger + cfg.bracket, p.lastTrigger, quiet), asserts,
                                   CandidateId(s.frames)),
                           Verdict(quiet, false, "")]
      && s'.frames == s.frames && s'.windows == s.windows
      && s'.pending.None? && s'.lastTrigger.None? && s'.lastClose == Some(quiet)
  {
    hide Feed, CandidateId;
  }

  lemma {:induction false} RunWatches(cfg: Settings, frames: seq<Frame>, n: nat)
    returns (ws: seq<Window>, open: Option<nat>)
    requires n <= |frames|
    ensures Watches(cfg, frames, n, ws, open, Processed(cfg, frames[..n]))
  {
    hide Watches, Process, Opens, Closes, LastClose, StaysOpen, FirstToOpen;
    if n == 0 {
      ws, open := [], None;
      NothingWatched(cfg, frames);
    } else {
      ws, open := RunWatches(cfg, frames, n - 1);
      assert frames[..n][..n - 1] == frames[..n - 1];
      var s := Processed(cfg, frames[..n - 1]);
      WatchesOpen(cfg, frames, n - 1, ws, open, s);
      if open.None? {
        if Opens(cfg, frames, LastClose(frames, ws), n - 1) {
          OpensNow(cfg, frames, n - 1, ws, s);
          open := Some(n - 1);
        } else {
          StaysClosed(cfg, frames, n - 1, ws, s);
        }
      } else if Closes(cfg, frames, LastClose(frames, ws), open.value, n - 1) {
        ClosesNow(cfg, frames, n - 1, ws, open.value, s);
        ws, open := ws + [Window(open.value, n - 1)], None;
      } else {
        GoesOn(cfg, frames, n - 1, ws, open.value, s);
      }
    }
  }

  lemma NothingWatched(cfg: Settings, frames: seq<Frame>)
    ensures Watches(cfg, frames, 0, [], None, START)
  {
  }

  lemma WatchesOpen(cfg: Settings, frames: seq<Frame>, n: nat, ws: seq<Window>, open: Option<nat>, s: Live)
    requires Watches(cfg, frames, n, ws, open, s)
    ensures open.Some? ==> open.value < n
  {
  }

  // Every run feeds exactly the verdicts of its windows, with the judge's answers,
  // and its counts are those of their runs.
  lemma RunsFeedTheirWindows(cfg: Settings, frames: seq<Frame>)
    ensures exists ws, open :: Windows(cfg, frames, |frames|, ws, open)
              && Processed(cfg, frames).verdicts == VerdictsOf(cfg, frames, ws)
              && Processed(cfg, frames).windows == |ws| + (if open.Some? then 1 else 0)
    ensures Processed(cfg, frames).counts == RunCounts(Processed(cfg, frames).verdicts, cfg.debounce)
  {
    var ws, open := RunWatches(cfg, frames, |frames|);
    assert frames[..|frames|] == frames;
    ProcessedRecorded(cfg, frames);
    hide Processed, Windows, VerdictsOf, FeedAll;
    CounterCountsRuns(Processed(cfg, frames).verdicts, cfg.debounce);
  }

  function AtTheEnd(cfg: Settings, frames: seq<Frame>, ws: seq<Window>, open: Option<nat>, asserts: bool): seq<Verdict>
  {
    if open.Some? && open.value < |frames| then
      var motion := LastMotion(cfg, frames, LastClose(frames, ws), open.value, |frames| - 1);
      [Verdict(Middle(cfg, frames[open.value].time, motion, motion), asserts, CandidateId(|frames|)),
       Verdict(motion, false, "")]
    else []
  }

  lemma FlushFeeds(cfg: Settings, frames: seq<Frame>, ws: seq<Window>, open: Option<nat>, s: Live, asserts: bool)
    requires Watches(cfg, frames, |frames|, ws, open, s)
    ensures Flushed(cfg, s, asserts).verdicts
            == VerdictsOf(cfg, frames, ws) + AtTheEnd(cfg, frames, ws, open, asserts)
  {
    hide VerdictsOf, Close, CandidateId, IsOpening, AreWindows, Finalize, Middle, FirstToOpen, StaysOpen;
    if open.Some? {
      ClosedVerdicts(cfg, s, s.pending.value, s.pending.value.lastTrigger, asserts);
    }
  }

  // Flushing closes the open window at its last motion with the judge's answer.
  lemma FlushFeedsTheOpenWindow(cfg: Settings, frames: seq<Frame>, asserts: bool)
    ensures exists ws, open :: Windows(cfg, frames, |frames|, ws, open)
              && Flushed(cfg, Processed(cfg, frames), asserts).verdicts
                 == VerdictsOf(cfg, frames, ws) + AtTheEnd(cfg, frames, ws, open, asserts)
    ensures var s := Flushed(cfg, Processed(cfg, frames), asserts);
      s.counts == FinalRunCounts(s.verdicts, cfg.debounce)
  {
    hide Processed, VerdictsOf, Flushed, FeedAll, Windows, AtTheEnd, FinalRunCounts, Finalize;
    var ws, open := RunWatches(cfg, frames, |frames|);
    assert frames[..|frames|] == frames;
    FlushFeeds(cfg, frames, ws, open, Processed(cfg, frames), asserts);
    FlushJudgesTheRest(cfg, frames, asserts);
    CounterCountsRuns(Flushed(cfg, Processed(cfg, frames), asserts).verdicts, cfg.debounce);
  }

  // ----- nothing is counted unless the judge asserts -----

  lemma {:induction false} NoneAsserted(cfg: Settings, frames: seq<Frame>, ws: seq<Window>)
    requires forall w :: w in ws && w.close < |frames| ==> !frames[w.close].asserts
    ensures forall v :: v in VerdictsOf(cfg, frames, ws) ==> !v.asserted
  {
    hide LastMotion, CandidateId;
    if ws != [] {
      NoneAsserted(cfg, frames, ws[..|ws| - 1]);
    }
  }

  // When the judge asserts no window, a run counts nothing, flushed or not.
  lemma NoAnswerNoCount(cfg: Settings, frames: seq<Frame>)
    requires forall ws: seq<Window>, open: Option<nat> :: Windows(cfg, frames, |frames|, ws, open) ==>
      forall w :: w in ws && w.close < |frames| ==> !frames[w.close].asserts
    ensures Processed(cfg, frames).counts == []
    ensures Flushed(cfg, Processed(cfg, frames), false).counts == []
  {
    hide Processed, FeedAll, VerdictsOf, Windows, CandidateId, Flushed, Middle, LastMotion;
    var ws, open := RunWatches(cfg, frames, |frames|);
    assert frames[..|frames|] == frames;
    var s := Processed(cfg, frames);
    NoneAsserted(cfg, frames, ws);
    NoAssertNoCount(s.verdicts, cfg.debounce);
    ProcessedRecorded(cfg, frames);
    FlushJudgesTheRest(cfg, frames, false);
    FlushFeeds(cfg, frames, ws, open, s, false);
    NoAssertNoCount(Flushed(cfg, s, false).verdicts, cfg.debounce);
  }
}
