// The pending-frame queue of app/services/frame_reader.py and the choice of the
// demo frames to show. One session runs from a start of the reader to the next.
module FrameQueue {
  import opened Prelude

  datatype Snapshot<F> = Snapshot(frame: F, frameTime: real, sequenceIndex: int, sourceTime: Option<real>)

  const MAX_PENDING_FRAMES := 240

  datatype Reader<F> = Reader(pending: seq<Snapshot<F>>, sequence: int, dropped: int)

  // What the producer, the consumer and the worker do; each runs under the lock.
  datatype Step<F> =
    | Produce(frame: F, frameTime: real, sourceTime: Option<real>)
    | Consume
    | Discard

  function DropOldest<F>(r: Reader<F>): Reader<F>
    decreases |r.pending|
  {
    if |r.pending| <= MAX_PENDING_FRAMES then r
    else DropOldest(r.(pending := r.pending[1..], dropped := r.dropped + 1))
  }

  function Numbered<F>(r: Reader<F>, frame: F, frameTime: real, sourceTime: Option<real>): Snapshot<F> {
    Snapshot(frame, frameTime, r.sequence + 1, sourceTime)
  }

  function Appended<F>(r: Reader<F>, snapshot: Snapshot<F>): Reader<F> {
    DropOldest(r.(sequence := r.sequence + 1, pending := r.pending + [snapshot]))
  }

  function Front<F>(r: Reader<F>): Option<Snapshot<F>> {
    if r.pending == [] then None else Some(r.pending[0])
  }

  function Popped<F>(r: Reader<F>): Reader<F> {
    if r.pending == [] then r else r.(pending := r.pending[1..])
  }

  // ----- a session with what became of every frame -----

  datatype Fate = Consumed | Dropped | Discarded

  // produced are the snapshots made so far, fates says what became of those that
  // left the queue, oldest first, and seen are the snapshots the consumer got.
  datatype Session<F> = Session(
    reader: Reader<F>,
    produced: seq<Snapshot<F>>,
    fates: seq<Fate>,
    seen: seq<Snapshot<F>>)

  function Started<F>(): Session<F> {
    Session(Reader([], 0, 0), [], [], [])
  }

  function Same(fate: Fate, n: int): seq<Fate> {
    if n <= 0 then [] else Same(fate, n - 1) + [fate]
  }

  function Next<F>(s: Session<F>, step: Step<F>): Session<F> {
    match step
    case Produce(frame, frameTime, sourceTime) =>
      var snapshot := Numbered(s.reader, frame, frameTime, sourceTime);
      var after := Appended(s.reader, snapshot);
      s.(reader := after, produced := s.produced + [snapshot],
         fates := s.fates + Same(Dropped, after.dropped - s.reader.dropped))
    case Consume =>
      (match Front(s.reader)
       case None => s
       case Some(snapshot) =>
         s.(reader := Popped(s.reader), fates := s.fates + [Consumed], seen := s.seen + [snapshot]))
    case Discard =>
      s.(reader := s.reader.(pending := []), fates := s.fates + Same(Discarded, |s.reader.pending|))
  }

  function Run<F>(steps: seq<Step<F>>): Session<F> {
    if steps == [] then Started() else Next(Run(steps[..|steps| - 1]), steps[|steps| - 1])
  }

  // The snapshots whose fate was to be consumed.
  function Taken<F>(produced: seq<Snapshot<F>>, fates: seq<Fate>): seq<Snapshot<F>>
    requires |fates| <= |produced|
  {
    if fates == [] then []
    else
      var n := |fates| - 1;
      Taken(produced, fates[..n]) + if fates[n].Consumed? then [produced[n]] else []
  }

  function Count(fates: seq<Fate>, fate: Fate): nat {
    if fates == [] then 0
    else Count(fates[..|fates| - 1], fate) + if fates[|fates| - 1] == fate then 1 else 0
  }

  // The queue is what no fate has befallen: the newest frames without a gap.
  ghost predicate Ordered<F>(s: Session<F>) {
    && |s.reader.pending| <= MAX_PENDING_FRAMES
    && s.reader.sequence == |s.produced|
    && (forall i :: 0 <= i < |s.produced| ==> s.produced[i].sequenceIndex == i + 1)
    && |s.fates| + |s.reader.pending| == |s.produced|
    && s.reader.pending == s.produced[|s.fates|..]
    && s.seen == Taken(s.produced, s.fates)
    && s.reader.dropped == Count(s.fates, Dropped)
  }

  // ----- each step keeps it -----

  lemma {:induction false} TakenGrows<F>(produced: seq<Snapshot<F>>, more: Snapshot<F>, fates: seq<Fate>)
    requires |fates| <= |produced|
    ensures Taken(produced + [more], fates) == Taken(produced, fates)
  {
    if fates != [] {
      TakenGrows(produced, more, fates[..|fates| - 1]);
    }
  }

  lemma {:induction false} SameFates<F>(produced: seq<Snapshot<F>>, fates: seq<Fate>, fate: Fate, n: nat)
    requires |fates| + n <= |produced| && fate != Consumed
    ensures |Same(fate, n)| == n
    ensures Taken(produced, fates + Same(fate, n)) == Taken(produced, fates)
    ensures Count(fates + Same(fate, n), fate) == Count(fates, fate) + n
    ensures forall other :: other != fate ==> Count(fates + Same(fate, n), other) == Count(fates, other)
  {
    if n == 0 {
      assert fates + [] == fates;
    } else {
      SameFates(produced, fates, fate, n - 1);
      var all := fates + Same(fate, n);
      assert all[..|all| - 1] == fates + Same(fate, n - 1);
    }
  }

  // A produced frame pushes out at most one other, and only from a full queue.
  lemma ProducingDropsAtMostOne<F>(r: Reader<F>, snapshot: Snapshot<F>)
    requires |r.pending| <= MAX_PENDING_FRAMES
    ensures var after := Appended(r, snapshot);
      if |r.pending| == MAX_PENDING_FRAMES
      then after.dropped == r.dropped + 1 && after.pending == r.pending[1..] + [snapshot]
      else after.dropped == r.dropped && after.pending == r.pending + [snapshot]
  {
    var grown := r.(sequence := r.sequence + 1, pending := r.pending + [snapshot]);
    if |r.pending| == MAX_PENDING_FRAMES {
      assert grown.pending[1..] == r.pending[1..] + [snapshot];
      assert DropOldest(grown) == DropOldest(grown.(pending := grown.pending[1..], dropped := r.dropped + 1));
    }
  }

  lemma AppendedSequence<F>(r: Reader<F>, snapshot: Snapshot<F>)
    requires |r.pending| <= MAX_PENDING_FRAMES
    ensures Appended(r, snapshot).sequence == r.sequence + 1
  {
    var grown := r.(sequence := r.sequence + 1, pending := r.pending + [snapshot]);
    if |r.pending| == MAX_PENDING_FRAMES {
      assert DropOldest(grown) == DropOldest(grown.(pending := grown.pending[1..], dropped := r.dropped + 1));
    }
  }

  lemma ProduceKeepsOrder<F>(s: Session<F>, frame: F, frameTime: real, sourceTime: Option<real>)
    requires Ordered(s)
    ensures Ordered(Next(s, Produce(frame, frameTime, sourceTime)))
  {
    hide DropOldest, Appended, Taken, Count, Same;
    var snapshot := Numbered(s.reader, frame, frameTime, sourceTime);
    ProducingDropsAtMostOne(s.reader, snapshot);
    AppendedSequence(s.reader, snapshot);
    var after := Appended(s.reader, snapshot);
    TakenGrows(s.produced, snapshot, s.fates);
    SameFates(s.produced + [snapshot], s.fates, Dropped, after.dropped - s.reader.dropped);
  }

  lemma ConsumeKeepsOrder<F>(s: Session<F>)
    requires Ordered(s)
    ensures Ordered(Next(s, Consume))
  {
    if s.reader.pending != [] {
      assert s.reader.pending[0] == s.produced[|s.fates|];
      var fates := s.fates + [Consumed];
      assert fates[..|fates| - 1] == s.fates;
    }
  }

  lemma DiscardKeepsOrder<F>(s: Session<F>)
    requires Ordered(s)
    ensures Ordered(Next(s, Discard))
  {
    hide Taken, Count, Same;
    SameFates(s.produced, s.fates, Discarded, |s.reader.pending|);
  }

  // In every interleaving the queue is the block of newest frames, at most 240.
  lemma {:induction false} RunOrdered<F>(steps: seq<Step<F>>)
    ensures Ordered(Run(steps))
  {
    hide Ordered, Next;
    if steps == [] {
      NothingOrdered<F>();
    } else {
      var s := Run(steps[..|steps| - 1]);
      RunOrdered(steps[..|steps| - 1]);
      match steps[|steps| - 1]
      case Produce(frame, frameTime, sourceTime) => ProduceKeepsOrder(s, frame, frameTime, sourceTime);
      case Consume => ConsumeKeepsOrder(s);
      case Discard => DiscardKeepsOrder(s);
    }
  }

  lemma NothingOrdered<F>()
    ensures Ordered<F>(Started())
  {
  }

  // ----- what that means for the consumer -----

  lemma {:induction false} TakenIncrease<F>(produced: seq<Snapshot<F>>, fates: seq<Fate>)
    requires |fates| <= |produced|
    requires forall i :: 0 <= i < |produced| ==> produced[i].sequenceIndex == i + 1
    ensures forall i :: 0 <= i < |Taken(produced, fates)| ==>
      Taken(produced, fates)[i].sequenceIndex <= |fates| && Taken(produced, fates)[i] in produced
    ensures forall i, j :: 0 <= i < j < |Taken(produced, fates)| ==>
      Taken(produced, fates)[i].sequenceIndex < Taken(produced, fates)[j].sequenceIndex
  {
    if fates != [] {
      TakenIncrease(produced, fates[..|fates| - 1]);
    }
  }

  // The consumer sees produced frames only, with strictly increasing numbers.
  lemma ConsumerSeesIncreasingNumbers<F>(steps: seq<Step<F>>, i: int, j: int)
    requires 0 <= i < j < |Run(steps).seen|
    ensures var s := Run(steps);
      && s.seen[i] in s.produced && s.seen[j] in s.produced
      && s.seen[i].sequenceIndex < s.seen[j].sequenceIndex
  {
    hide Run;
    RunOrdered(steps);
    var s := Run(steps);
    TakenIncrease(s.produced, s.fates);
  }

  lemma {:induction false} FatesAddUp<F>(produced: seq<Snapshot<F>>, fates: seq<Fate>)
    requires |fates| <= |produced|
    ensures |fates| == |Taken(produced, fates)| + Count(fates, Dropped) + Count(fates, Discarded)
  {
    if fates != [] {
      FatesAddUp(produced, fates[..|fates| - 1]);
    }
  }

  // Every frame produced was consumed, dropped or discarded, or is pending.
  lemma FramesAreConserved<F>(steps: seq<Step<F>>)
    ensures var s := Run(steps);
      && s.reader.sequence == |s.produced|
      && |s.produced| == |s.seen| + s.reader.dropped + Count(s.fates, Discarded) + |s.reader.pending|
  {
    hide Run;
    RunOrdered(steps);
    FatesAddUp(Run(steps).produced, Run(steps).fates);
  }

  lemma {:induction false} AllTaken<F>(produced: seq<Snapshot<F>>, fates: seq<Fate>)
    requires |fates| <= |produced| && Count(fates, Dropped) == 0 && Count(fates, Discarded) == 0
    ensures Taken(produced, fates) == produced[..|fates|]
  {
    if fates != [] {
      AllTaken(produced, fates[..|fates| - 1]);
    }
  }

  // As long as nothing overflowed and nothing was discarded, the consumer has
  // every frame in order and the rest waits for it.
  lemma NothingIsLostSilently<F>(steps: seq<Step<F>>)
    requires Run(steps).reader.dropped == 0 && Count(Run(steps).fates, Discarded) == 0
    ensures Run(steps).seen + Run(steps).reader.pending == Run(steps).produced
  {
    hide Run;
    RunOrdered(steps);
    AllTaken(Run(steps).produced, Run(steps).fates);
  }

  // ----- the reader as the source has it -----

  class FrameReader<F> {
    var pendingFrames: seq<Snapshot<F>>
    const maxPendingFrames: int
    var droppedFrameCount: int
    var sequenceIndex: int

    ghost var session: Session<F>

    ghost predicate Valid()
      reads this
    {
      && maxPendingFrames == MAX_PENDING_FRAMES
      && session.reader == Reader(pendingFrames, sequenceIndex, droppedFrameCount)
    }

    constructor ()
      ensures Valid() && session == Started()
    {
      maxPendingFrames := 240;
      pendingFrames, droppedFrameCount, sequenceIndex := [], 0, 0;
      session := Started();
    }

    // Starting the source that is already running with the same demo settings
    // does nothing; otherwise it clears the queue and the counters.
    method Start(alreadyRunning: bool)
      requires Valid()
      modifies this
      ensures Valid() && session == if alreadyRunning then old(session) else Started()
    {
      if alreadyRunning {
        return;
      }
      pendingFrames, droppedFrameCount, sequenceIndex := [], 0, 0;
      session := Started();
    }

    // The locked part of the read loop.
    method AppendFrame(frame: F, frameTime: real, sourceTime: Option<real>)
      requires Valid()
      modifies this
      ensures Valid() && session == Next(old(session), Produce(frame, frameTime, sourceTime))
    {
      ghost var before := session.reader;
      sequenceIndex := sequenceIndex + 1;
      var snapshot := Snapshot(frame, frameTime, sequenceIndex, sourceTime);
      pendingFrames := pendingFrames + [snapshot];
      while |pendingFrames| > maxPendingFrames
        invariant maxPendingFrames == MAX_PENDING_FRAMES && session == old(session)
        invariant DropOldest(Reader(pendingFrames, sequenceIndex, droppedFrameCount)) == Appended(before, snapshot)
        decreases |pendingFrames|
      {
        pendingFrames := pendingFrames[1..];
        droppedFrameCount := droppedFrameCount + 1;
      }
      session := Next(session, Produce(frame, frameTime, sourceTime));
    }

    method ConsumeNextFrame() returns (snapshot: Option<Snapshot<F>>)
      requires Valid()
      modifies this
      ensures Valid() && session == Next(old(session), Consume)
      ensures session.seen == old(session).seen + if snapshot.Some? then [snapshot.value] else []
      ensures snapshot.None? <==> old(pendingFrames) == []
    {
      session := Next(session, Consume);
      if pendingFrames == [] {
        return None;
      }
      snapshot := Some(pendingFrames[0]);
      pendingFrames := pendingFrames[1..];
    }

    method DiscardPendingFrames()
      requires Valid()
      modifies this
      ensures Valid() && session == Next(old(session), Discard)
    {
      session := Next(session, Discard);
      pendingFrames := [];
    }
  }

  // ----- the frames of a demo that are shown -----

  // The frame nearest to the k-th of the moments ratio frames apart.
  function Sample(ratio: real, k: nat): int {
    (k as real * ratio + 0.5).Floor
  }

  lemma SampleIncreases(ratio: real, k: nat)
    requires ratio > 1.0
    ensures Sample(ratio, k) < Sample(ratio, k + 1)
  {
    assert (k + 1) as real * ratio == k as real * ratio + ratio;
  }

  // The loop of the source; its timestamps are multiples of frameInterval.
  method SampledBelow(fps: real, frameInterval: real, totalFrames: int, ghost ratio: real)
    returns (indices: seq<int>)
    requires ratio > 1.0 && frameInterval * fps == ratio
    ensures forall k: nat :: k < |indices| ==> indices[k] == Sample(ratio, k) < totalFrames
    ensures Sample(ratio, |indices|) >= totalFrames
  {
    hide Sample;
    indices := [];
    var timestamp := 0.0;
    while true
      invariant timestamp * fps == |indices| as real * ratio
      invariant forall k: nat :: k < |indices| ==> indices[k] == Sample(ratio, k) < totalFrames
      decreases totalFrames - Sample(ratio, |indices|)
    {
      SampleOf(timestamp * fps, ratio, |indices|);
      var frameIndex := (timestamp * fps + 0.5).Floor;
      if frameIndex >= totalFrames {
        break;
      }
      if |indices| > 0 {
        SampleIncreases(ratio, |indices| - 1);
      }
      SampleIncreases(ratio, |indices|);
      NextTimestamp(timestamp, frameInterval, fps, ratio, |indices|);
      if indices == [] || frameIndex > indices[|indices| - 1] {
        indices := indices + [frameIndex];
      }
      timestamp := timestamp + frameInterval;
    }
  }

  // n is the frame nearest to the position, the later of two.
  predicate NearestFrame(n: int, position: real) {
    position - 0.5 < n as real <= position + 0.5
  }

  lemma SampleIsNearest(ratio: real, k: nat, n: int)
    ensures Sample(ratio, k) == n <==> NearestFrame(n, k as real * ratio)
  {
  }

  // Sampling takes the frames nearest to every moment up to the last frame there is.
  method SampledFrameIndices(videoFps: real, frameCount: int, outputFps: real) returns (indices: seq<int>)
    ensures var ratio := MaxReal(videoFps, 1.0) / MaxReal(outputFps, 0.1);
      if frameCount > 0 && ratio > 1.0 then
        && (forall k: nat :: k < |indices| ==> NearestFrame(indices[k], k as real * ratio) && indices[k] < frameCount)
        && |indices| as real * ratio + 0.5 >= frameCount as real
      else
        |indices| == Max(frameCount, 0) && forall k: nat :: k < |indices| ==> indices[k] == k
  {
    hide Sample;
    var fps := MaxReal(videoFps, 1.0);
    var totalFrames := Max(frameCount, 0);
    var selectedFps := MaxReal(outputFps, 0.1);
    RatioAboveOne(fps, selectedFps);
    if totalFrames <= 0 {
      return [];
    }
    if selectedFps >= fps {
      indices := seq(totalFrames, i => i);
      return;
    }
    var ratio := fps / selectedFps;
    indices := SampledBelow(fps, 1.0 / selectedFps, totalFrames, ratio);
    forall k: nat | k < |indices|
      ensures NearestFrame(indices[k], k as real * ratio)
    {
      SampleIsNearest(ratio, k, indices[k]);
    }
    SampleIsNearest(ratio, |indices|, Sample(ratio, |indices|));
  }

  lemma SampleOf(position: real, ratio: real, k: nat)
    requires position == k as real * ratio
    ensures (position + 0.5).Floor == Sample(ratio, k)
  {
  }

  lemma NextTimestamp(timestamp: real, frameInterval: real, fps: real, ratio: real, k: nat)
    requires timestamp * fps == k as real * ratio && frameInterval * fps == ratio
    ensures (timestamp + frameInterval) * fps == (k + 1) as real * ratio
  {
  }

  lemma RatioAboveOne(fps: real, selectedFps: real)
    requires fps >= 1.0 && selectedFps > 0.0
    ensures fps / selectedFps > 1.0 <==> selectedFps < fps
    ensures (1.0 / selectedFps) * fps == fps / selectedFps
  {
    var ratio, interval := fps / selectedFps, 1.0 / selectedFps;
    assert ratio * selectedFps == fps && interval * selectedFps == 1.0;
    assert interval * (ratio * selectedFps) == ratio * (interval * selectedFps);
    if selectedFps < fps {
      assert (ratio - 1.0) * selectedFps > 0.0;
    } else {
      assert (ratio - 1.0) * selectedFps <= 0.0;
    }
  }

  // The guard against repeated indices never fires: the samples of any two
  // moments differ by less than one frame from their distance in the video.
  lemma {:induction false} SamplesKeepPace(ratio: real, j: nat, k: nat)
    requires ratio > 1.0 && j < k
    ensures Sample(ratio, j) < Sample(ratio, k)
    ensures var distance := (k - j) as real * ratio;
      distance - 1.0 < (Sample(ratio, k) - Sample(ratio, j)) as real < distance + 1.0
  {
    if j + 1 < k {
      SamplesKeepPace(ratio, j, k - 1);
    }
    SampleIncreases(ratio, k - 1);
    assert k as real * ratio == j as real * ratio + (k - j) as real * ratio;
  }
}
