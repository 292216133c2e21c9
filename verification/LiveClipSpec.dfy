// app/services/live_clip_counter.py as functions: trigger windows, cooldown,
// refractory gap, and the placement counter behind them.  The motion trigger
// and the judge's answer of each frame are inputs.
module LiveClipSpec {
  import opened Prelude
  import opened PlacementSpec
  import Sorting

  datatype Settings = Settings(bracket: real, minGap: real, cooldown: real, debounce: real)

  // The constructor accepts these settings and no others.
  predicate Accepted(cfg: Settings) {
    cfg.bracket > 0.0 && cfg.minGap >= 0.0 && cfg.debounce > 0.0
  }

  datatype Pending = Pending(firstTrigger: real, lastTrigger: real)

  // verdicts, counts and windows record what was fed, what came out, and how many
  // windows were opened; no step reads them.
  datatype Live = Live(
    counter: State,
    pending: Option<Pending>,
    lastTrigger: Option<real>,
    lastClose: Option<real>,
    frames: int,
    streak: int,
    total: int,
    verdicts: seq<Verdict>,
    counts: seq<Count>,
    windows: nat)

  const START := Live(QUIET, None, None, None, 0, 0, 0, [], [], 0)

  datatype Frame = Frame(time: real, triggered: bool, asserts: bool)

  function Padded(text: string, width: nat): string
    decreases width - |text|
  {
    if |text| >= width then text else Padded("0" + text, width)
  }

  function CandidateId(frame: int): string {
    "live-" + Padded(Decimal(frame), 9)
  }

  predicate Refractory(cfg: Settings, s: Live, time: real) {
    s.lastClose.Some? && time - s.lastClose.value < cfg.minGap
  }

  function OpenOrExtend(cfg: Settings, s: Live, time: real): Live {
    if Refractory(cfg, s, time) then s
    else if s.pending.None? then
      s.(pending := Some(Pending(time - cfg.bracket, time)), lastTrigger := Some(time), windows := s.windows + 1)
    else s.(pending := Some(s.pending.value.(lastTrigger := time)), lastTrigger := Some(time))
  }

  predicate CooldownElapsed(cfg: Settings, s: Live, time: real) {
    s.lastTrigger.None? || time - s.lastTrigger.value >= cfg.cooldown
  }

  function WindowStart(p: Pending): real {
    MaxReal(0.0, p.firstTrigger)
  }

  function WindowEnd(cfg: Settings, p: Pending, quiet: real): real {
    MinReal(p.lastTrigger + cfg.bracket, quiet)
  }

  function WindowCenter(cfg: Settings, p: Pending, quiet: real): real {
    (WindowStart(p) + WindowEnd(cfg, p, quiet)) / 2.0
  }

  function Fed(cfg: Settings, s: Live, v: Verdict): Live {
    var run := Feed(s.counter, v, cfg.debounce);
    s.(counter := run.state, verdicts := s.verdicts + [v], counts := s.counts + run.counts)
  }

  // The window closes: its verdict, then the calm that closed it.
  function Close(cfg: Settings, s: Live, p: Pending, quiet: real, asserts: bool): Live {
    var s1 := s.(pending := None, lastTrigger := None, lastClose := Some(quiet));
    var s2 := Fed(cfg, s1, Verdict(WindowCenter(cfg, p, quiet), asserts, CandidateId(s.frames)));
    var s3 := Fed(cfg, s2, Verdict(quiet, false, ""));
    if |s3.counts| > |s.counts| then s3.(total := s3.counts[|s3.counts| - 1].number) else s3
  }

  function Process(cfg: Settings, s: Live, f: Frame): Live {
    var s1 := s.(frames := s.frames + 1, streak := if f.triggered then s.streak + 1 else 0);
    if s1.pending.None? then
      if f.triggered then OpenOrExtend(cfg, s1, f.time).(streak := 0) else s1
    else if f.triggered && s1.streak >= 2 then OpenOrExtend(cfg, s1, f.time)
    else if CooldownElapsed(cfg, s1, f.time) then Close(cfg, s1, s1.pending.value, f.time, f.asserts)
    else s1
  }

  function Processed(cfg: Settings, frames: seq<Frame>): Live {
    if frames == [] then START
    else Process(cfg, Processed(cfg, frames[..|frames| - 1]), frames[|frames| - 1])
  }

  // At the end of the stream an open window is closed at its last trigger and
  // the pending placement is finalized.
  function Flushed(cfg: Settings, s: Live, asserts: bool): Live {
    var s1 := if s.pending.Some? then Close(cfg, s, s.pending.value, s.pending.value.lastTrigger, asserts) else s;
    var last := Finalize(s1.counter, cfg.debounce);
    var s2 := s1.(counter := last.state, counts := s1.counts + last.counts);
    if |s2.counts| > |s.counts| then s2.(total := s2.counts[|s2.counts| - 1].number) else s2
  }

  // ----- every window is judged once, and counts are the counter's -----

  ghost predicate Recorded(cfg: Settings, s: Live) {
    && Run(s.counter, s.counts) == FeedAll(s.verdicts, cfg.debounce)
    && s.total == |s.counts|
    && |s.verdicts| == 2 * (s.windows - if s.pending.Some? then 1 else 0)
    && (s.pending.Some? ==> s.windows >= 1)
  }

  lemma FeedAllMore(vs: seq<Verdict>, v: Verdict, debounce: real)
    ensures var before := FeedAll(vs, debounce);
      var now := Feed(before.state, v, debounce);
      FeedAll(vs + [v], debounce) == Run(now.state, before.counts + now.counts)
  {
    assert (vs + [v])[..|vs + [v]| - 1] == vs;
  }

  lemma CloseRecorded(cfg: Settings, s: Live, quiet: real, asserts: bool)
    requires Recorded(cfg, s) && s.pending.Some?
    ensures Recorded(cfg, Close(cfg, s, s.pending.value, quiet, asserts))
    ensures Close(cfg, s, s.pending.value, quiet, asserts).pending.None?
  {
    hide Feed, WindowCenter, CandidateId, FeedAll;
    var v := Verdict(WindowCenter(cfg, s.pending.value, quiet), asserts, CandidateId(s.frames));
    FeedAllMore(s.verdicts, v, cfg.debounce);
    FeedAllMore(s.verdicts + [v], Verdict(quiet, false, ""), cfg.debounce);
    FeedAllNumbered(s.verdicts + [v] + [Verdict(quiet, false, "")], cfg.debounce);
    FeedAllNumbered(s.verdicts, cfg.debounce);
  }

  lemma ProcessRecorded(cfg: Settings, s: Live, f: Frame)
    requires Recorded(cfg, s)
    ensures Recorded(cfg, Process(cfg, s, f))
  {
    hide Close, FeedAll, Refractory, CooldownElapsed;
    var s1 := s.(frames := s.frames + 1, streak := if f.triggered then s.streak + 1 else 0);
    if s1.pending.Some? {
      CloseRecorded(cfg, s1, f.time, f.asserts);
    }
  }

  lemma {:induction false} ProcessedRecorded(cfg: Settings, frames: seq<Frame>)
    ensures Recorded(cfg, Processed(cfg, frames))
  {
    if frames != [] {
      hide Process, Recorded;
      ProcessedRecorded(cfg, frames[..|frames| - 1]);
      ProcessRecorded(cfg, Processed(cfg, frames[..|frames| - 1]), frames[|frames| - 1]);
    }
  }

  // ----- when the fed verdicts are sorted -----

  // Stream times never go back and start at zero or later.
  ghost predicate Clocked(frames: seq<Frame>) {
    && (forall k :: 0 <= k < |frames| ==> frames[k].time >= 0.0)
    && (forall j, k :: 0 <= j < k < |frames| ==> frames[j].time <= frames[k].time)
  }

  // Twice the refractory gap and the cooldown together span the bracket.
  predicate KeepsOrder(cfg: Settings) {
    2.0 * cfg.minGap + MaxReal(0.0, cfg.cooldown) >= cfg.bracket
  }

  // now is the time of the newest frame.
  ghost predicate InOrder(cfg: Settings, s: Live, now: real) {
    && Sorted(s.verdicts)
    && (s.verdicts != [] ==> s.lastClose == Some(s.verdicts[|s.verdicts| - 1].center))
    && (s.verdicts == [] ==> s.lastClose.None?)
    && (s.lastClose.Some? ==> 0.0 <= s.lastClose.value <= now)
    && (s.pending.Some? ==>
          var p := s.pending.value;
          var opening := p.firstTrigger + cfg.bracket;
          && 0.0 <= opening <= p.lastTrigger <= now
          && s.lastTrigger == Some(p.lastTrigger)
          && (s.lastClose.Some? ==> opening - s.lastClose.value >= cfg.minGap))
  }

  lemma SortedMore(vs: seq<Verdict>, v: Verdict)
    requires Sorted(vs) && (vs != [] ==> vs[|vs| - 1].center <= v.center)
    ensures Sorted(vs + [v])
  {
    var more := vs + [v];
    forall i, j | 0 <= i < j < |more|
      ensures NotLater(more[i], more[j])
    {
      if j == |vs| && i < |vs| - 1 {
        assert NotLater(vs[i], vs[|vs| - 1]);
      }
    }
  }

  // A window's center lies between the calm before it and the calm closing it.
  lemma CenterInOrder(cfg: Settings, s: Live, quiet: real)
    requires Accepted(cfg) && KeepsOrder(cfg) && InOrder(cfg, s, quiet) && s.pending.Some?
    requires quiet - s.pending.value.lastTrigger >= cfg.cooldown
    ensures var c := WindowCenter(cfg, s.pending.value, quiet);
      c <= quiet && (s.lastClose.Some? ==> s.lastClose.value <= c)
  {
    hide Sorting.Ordered;
  }

  lemma CloseInOrder(cfg: Settings, s: Live, quiet: real, asserts: bool)
    requires Accepted(cfg) && KeepsOrder(cfg) && InOrder(cfg, s, quiet) && s.pending.Some?
    requires quiet - s.pending.value.lastTrigger >= cfg.cooldown
    ensures InOrder(cfg, Close(cfg, s, s.pending.value, quiet, asserts), quiet)
  {
    hide Sorting.Ordered, Feed, CandidateId, WindowCenter;
    CenterInOrder(cfg, s, quiet);
    var v := Verdict(WindowCenter(cfg, s.pending.value, quiet), asserts, CandidateId(s.frames));
    SortedMore(s.verdicts, v);
    SortedMore(s.verdicts + [v], Verdict(quiet, false, ""));
  }

  lemma ProcessInOrder(cfg: Settings, s: Live, f: Frame, now: real)
    requires Accepted(cfg) && KeepsOrder(cfg) && InOrder(cfg, s, now) && 0.0 <= now <= f.time
    ensures InOrder(cfg, Process(cfg, s, f), f.time)
  {
    hide Sorting.Ordered, Close;
    var s1 := s.(frames := s.frames + 1, streak := if f.triggered then s.streak + 1 else 0);
    if s1.pending.Some? && !(f.triggered && s1.streak >= 2) && CooldownElapsed(cfg, s1, f.time) {
      CloseInOrder(cfg, s1, f.time, f.asserts);
    }
  }

  lemma {:induction false} ProcessedInOrder(cfg: Settings, frames: seq<Frame>)
    requires Accepted(cfg) && KeepsOrder(cfg) && Clocked(frames)
    ensures InOrder(cfg, Processed(cfg, frames), if frames == [] then 0.0 else frames[|frames| - 1].time)
  {
    if frames != [] {
      hide Process, InOrder;
      var n := |frames| - 1;
      ProcessedInOrder(cfg, frames[..n]);
      ProcessInOrder(cfg, Processed(cfg, frames[..n]), frames[n], if n == 0 then 0.0 else frames[n - 1].time);
    }
  }

  // Live counting is batch counting: the total is the number of counts that
  // count_placements finds in the verdicts the live counter fed, and every
  // closed window was judged once.
  lemma {:induction false} LiveRefinesBatch(cfg: Settings, frames: seq<Frame>)
    requires Accepted(cfg) && KeepsOrder(cfg) && Clocked(frames)
    ensures var s := Processed(cfg, frames);
      && Sorted(s.verdicts)
      && s.counts == CountPlacements(s.verdicts, cfg.debounce, false)
      && s.total == |CountPlacements(s.verdicts, cfg.debounce, false)|
      && |s.verdicts| == 2 * (s.windows - if s.pending.Some? then 1 else 0)
  {
    hide Processed, FeedAll, KeepsOrder;
    var s := Processed(cfg, frames);
    ProcessedInOrder(cfg, frames);
    ProcessedRecorded(cfg, frames);
    Sorting.SortOfOrdered(NotLater, s.verdicts);
  }

  // ----- and when they are not -----

  // The first frame has none before it to differ from, so it never triggers.
  ghost predicate StartsStill(frames: seq<Frame>) {
    frames != [] ==> !frames[0].triggered
  }

  // After a still frame two windows, each closed as early as its settings allow,
  // the second opened as soon as the refractory gap is over.
  function Hasty(cfg: Settings): seq<Frame> {
    var calm := MaxReal(0.0, cfg.cooldown);
    var first := cfg.bracket;
    var second := first + calm + cfg.minGap;
    [Frame(0.0, false, false), Frame(first, true, false), Frame(first + calm, false, false),
     Frame(second, true, false), Frame(second + calm, false, false)]
  }

  lemma HastyFirstWindow(cfg: Settings)
    requires Accepted(cfg) && !KeepsOrder(cfg)
    ensures var s := Processed(cfg, Hasty(cfg)[..3]);
      && s.pending.None? && s.lastTrigger.None? && s.streak == 0
      && s.lastClose == Some(cfg.bracket + MaxReal(0.0, cfg.cooldown))
      && |s.verdicts| == 2 && s.verdicts[1].center == cfg.bracket + MaxReal(0.0, cfg.cooldown)
  {
    hide Feed, CandidateId;
    var h := Hasty(cfg);
    assert h[..3][..2] == h[..2] && h[..2][..1] == h[..1] && h[..1][..0] == [];
    assert Processed(cfg, []) == START;
    var s0 := Process(cfg, START, h[0]);
    assert Processed(cfg, h[..1]) == s0;
    var s1 := Process(cfg, s0, h[1]);
    assert Processed(cfg, h[..2]) == s1;
    assert s1.pending == Some(Pending(0.0, cfg.bracket));
    assert Processed(cfg, h[..3]) == Process(cfg, s1, h[2]);
  }

  lemma HastySecondWindow(cfg: Settings)
    requires Accepted(cfg) && !KeepsOrder(cfg)
    ensures var vs := Processed(cfg, Hasty(cfg)).verdicts;
      |vs| == 4 && vs[2].center < vs[1].center
  {
    hide Feed, CandidateId;
    var h := Hasty(cfg);
    var calm := MaxReal(0.0, cfg.cooldown);
    HastyFirstWindow(cfg);
    var s2 := Processed(cfg, h[..3]);
    assert h[..4][..3] == h[..3] && h[..5] == h && h[..5][..4] == h[..4];
    var s3 := Process(cfg, s2, h[3]);
    assert Processed(cfg, h[..4]) == s3;
    assert s3.pending == Some(Pending(calm + cfg.minGap, h[3].time));
    assert s3.verdicts == s2.verdicts;
    assert Processed(cfg, h) == Process(cfg, s3, h[4]);
    HastyCenter(cfg);
  }

  lemma HastyCenter(cfg: Settings)
    requires Accepted(cfg) && !KeepsOrder(cfg)
    ensures var calm := MaxReal(0.0, cfg.cooldown);
      var second := cfg.bracket + calm + cfg.minGap;
      WindowCenter(cfg, Pending(calm + cfg.minGap, second), second + calm) < cfg.bracket + calm
  {
  }

  // The verdicts of every clocked run are sorted exactly when twice the gap and
  // the cooldown together span the bracket; a cooldown of at least the bracket,
  // as in the defaults, is more than enough.
  lemma SortedExactlyWhenKeepsOrder(cfg: Settings)
    requires Accepted(cfg)
    ensures KeepsOrder(cfg)
            <==> (forall frames: seq<Frame> :: Clocked(frames) && StartsStill(frames) ==>
                    Sorted(Processed(cfg, frames).verdicts))
    ensures cfg.cooldown >= cfg.bracket ==> KeepsOrder(cfg)
  {
    hide Processed, Sorting.Ordered;
    if KeepsOrder(cfg) {
      forall frames: seq<Frame> | Clocked(frames) && StartsStill(frames)
        ensures Sorted(Processed(cfg, frames).verdicts)
      {
        ProcessedInOrder(cfg, frames);
      }
    } else {
      HastySecondWindow(cfg);
      assert Clocked(Hasty(cfg)) && StartsStill(Hasty(cfg));
      NotSorted(Processed(cfg, Hasty(cfg)).verdicts);
    }
  }

  lemma NotSorted(vs: seq<Verdict>)
    requires |vs| == 4 && vs[2].center < vs[1].center
    ensures !Sorted(vs)
  {
    assert !NotLater(vs[1], vs[2]);
  }

  // ----- the end of the stream -----

  // Flushing judges the window still open, and the total is all counts.
  lemma {:induction false} FlushJudgesTheRest(cfg: Settings, frames: seq<Frame>, asserts: bool)
    ensures var s := Flushed(cfg, Processed(cfg, frames), asserts);
      && s.pending.None? && |s.verdicts| == 2 * s.windows
      && s.total == |s.counts|
      && s.counts == FeedAll(s.verdicts, cfg.debounce).counts
                     + Finalize(FeedAll(s.verdicts, cfg.debounce).state, cfg.debounce).counts
  {
    hide Processed, FeedAll, Close, Finalize;
    var s := Processed(cfg, frames);
    ProcessedRecorded(cfg, frames);
    if s.pending.Some? {
      CloseRecorded(cfg, s, s.pending.value.lastTrigger, asserts);
    }
    var s1 := if s.pending.Some? then Close(cfg, s, s.pending.value, s.pending.value.lastTrigger, asserts) else s;
    FeedAllNumbered(s1.verdicts, cfg.debounce);
    FinalizeNumbered(Run(s1.counter, s1.counts), cfg.debounce);
    CloseOnlyAdds(cfg, s, asserts);
  }

  lemma CloseOnlyAdds(cfg: Settings, s: Live, asserts: bool)
    ensures s.pending.Some? ==>
      |Close(cfg, s, s.pending.value, s.pending.value.lastTrigger, asserts).counts| >= |s.counts|
  {
    hide Feed, WindowCenter, CandidateId;
  }
}
