# Counting kernel of the factory vision runtime, verified

This project models how the runtime decides that a part was delivered, and the
code that judges those decisions, and proves what they guarantee over every
input and every run.

- **The source-token counter** (`CountModel`, `CountStateMachine`). Tracks hold
  references to shared source tokens that are minted, inherited, refreshed,
  expired and spent. `CountStateMachine` has the mutable classes with real
  aliasing; each method is proved to compute one step of the functions in
  `CountModel`, where tokens live in a store and tracks hold indices into it.
  The state carries a log of what happened (updates begun, detections,
  placements by delivery chains, inheritances, forgotten tracks, counts) that no
  step reads; `CountHistory` says what each count must be justified by in that
  log, `CountInvariant` and `CountEffects` prove that every step keeps the
  invariant, `CountTheorems` draws the whole-run conclusions, `CountChoices`
  characterises the two selections, and `CountDelivery` proves the other
  direction: a proper delivery is counted, once, in its last frame, with
  `CountBystanders` on what other tracks in the same frames can do to it.
  `CountNewcomers`, `CountSightings`, `CountAbsence` and `CountChains` say what
  first judgements, single sightings, absences and delivery chains do, without
  the functions that do it; `CountWrites` what a step may write, and
  `CountResidents` that residents are the counted parts.
- **The event runtime** (`BoxTracker`, `GateStitching`, `RuntimeModel`,
  `RuntimeEventCounter`, `RuntimeEvidence`): the box tracker with its own ageing,
  the gate accumulators with the stitching of split fragments, and their
  composition with the counter. What neither part has alone: every tracker id is
  counted at most once, exactly when the tracker is not asked to remember longer
  than the counter does. `RuntimeScene`, `RuntimeScript`, `CountQuiet` and
  `RuntimeRecount` follow the run that shows the other direction: in a fixed
  scene, with the gate's own decisions, for every gate line. `GateFragments` says
  what accumulators sum up and which fragments are linked, `RuntimeChains` what the
  counts of a frame are of.
- **Live clip counting** (`PlacementSpec`, `PlacementCounter`, `LiveClipSpec`,
  `LiveClipCounter`): windows, cooldown and refractory gap in front of the
  placement counter, refining the batch count of the exam. `PlacementRuns` counts
  by runs of asserts, `LiveClipWindows` describes the windows by the frames alone.
- **Judging** (`TruthComparison`, `TruthReport`, `ExamGate`, `Consensus`,
  `TeacherRetry`): the two-pointer comparison as a maximum matching whose report is
  exact, greedy gold matching, first-fit running-mean clustering, and the bisecting
  retry.
- **Small machines** (`FrameQueue`, `Onboarding`): the reader's drop-oldest
  queue under interleaved steps, and the onboarding session.

`Prelude`, `Geometry` and `Sorting` hold shared definitions. Time and geometry
are real numbers; distances are compared by their squares.

Some results are sharper than the source states them. The second debounce test
of the placement counter, on the midpoint, can never drop a placement, whatever
verdicts were fed in whatever order. The live counter feeds sorted verdicts
exactly when twice the candidate gap plus the cooldown reach the bracket; a
cooldown of at least the bracket, as in the defaults, is only one way to get
there. Greedy gold matching is maximum for all counts, and passing means that a
perfect pairing exists for all counts, exactly when any two golds are equal or
more than twice the tolerance apart. And the runtime counts no tracker id twice
exactly when `tracker_max_missing_frames` is at most 30 or the tracker's match
distance is negative, so that it never finds a track again.

## Model

| member | source | states |
|---|---|---|
| CountTheorems.StepKeeps | app/services/count_state_machine.py:144-238 | Every update and every delivery chain, from any state that satisfies the invariant, keeps it: each count in the log is justified by the log before it, tokens named by authorized counts are consumed, counters agree with the log, track memory agrees with the detections recorded |
| CountTheorems.NoTokenSpentTwice | app/services/count_state_machine.py:220-238 | Over any interleaving of updates and chains, two different authorized counts both name a token and never the same one, although tracks share tokens by inheritance |
| CountTheorems.NoChainCountedTwice | app/services/count_state_machine.py:191-202 | Each chain id yields at most one count in a run |
| CountTheorems.DirectCountsCrossedGate | app/services/count_state_machine.py:279-298 | With a gate, a count that is not from a chain is of a track that itself, or through the tracks its token came from, crossed in the allowed direction between two consecutive recorded centers; a crossing flag forced by a chain is never the reason |
| CountTheorems.DirectCountsAreFresh | app/services/count_state_machine.py:307-320 | A disappearance counts exactly disappear_in_output_frames (at least 1) updates after the last detection, a stable count in the update that sees it; the token is no older than that, and both are token-authorized |
| CountTheorems.LiveTokensAreYoung | app/services/count_state_machine.py:404-416 | After every operation no counted track holds a live token, and a live token on a track outside the output is within its time to live |
| CountTheorems.CountsAreConserved | app/services/count_state_machine.py:330-356 | total = sum of the returned counts = residents = authorized + inferred; authorized is the number of authorized events and at most the tokens minted, inferred the number of inferred events and at most the committed chains |
| CountTheorems.OutputOnlyNeverCounted | app/services/count_state_machine.py:260-300 | A track that is a resident output object without a live token gets no count in any later sequence of updates while its memory lives, and stays such a track |
| CountNewcomers.ResidentIsNotRecounted | app/services/count_state_machine.py:260-265 | A track not judged before that is seen once in an update, in the output and not ignored, with its box within the resident distance of a counted part or overlapping it enough, becomes an output-only track: it is not counted and inherits nothing, whatever else the update shows |
| CountNewcomers.NewcomerInheritsExactly | app/services/count_state_machine.py:266-271 | Outside the source, without such a part beside it, it takes over the token of the uncounted track with a live, young enough token that is missing for the fewest frames, renamed to it, with its crossing flag and enough source frames, if and only if there is one; else it becomes output-only |
| CountWrites.UpdateWrites | app/services/count_state_machine.py:144-169 | A stable count is of an approved track the update shows in the output outside ignore zones, with the box shown; a disappearance of one it does not show; only tracks shown in the output alone inherit |
| CountSightings.IgnoredOnlyMoves | app/services/count_state_machine.py:252-254 | A sighting in an ignore zone sets where the track is and renews its live token, and changes nothing else |
| CountSightings.SourceSightingGivesToken | app/services/count_state_machine.py:273-277 | A sighting in the source alone of a track that is neither counted nor a resident keeps its live token, or makes one here and now exactly when it was seen often enough |
| CountSightings.MovingIsNotCounted | app/services/count_state_machine.py:284-298 | After any run, a track that appears or has moved by more than the stable distance in the output outside the source is not counted before it was seen there in output_stable_frames updates, whatever is approved |
| CountSightings.StatesAreEarned | app/services/count_state_machine.py:240-305 | In every run a state is earned: counted resident only when counted, source confirmed, moving or uncertain only with a token given, in output only after entering it with the gate satisfied |
| CountAbsence.DisappearanceIsCounted | app/services/count_state_machine.py:307-320 | A delivery, undisturbed as there, that breaks off in the output is counted, while it is remembered, in the update in which the track has been missing for disappear_in_output_frames (at least 1), once, if it was approved when last seen, and never if not |
| CountAbsence.LeavingIsNotCounted | app/services/count_state_machine.py:252-258 | A settling track last seen outside the output or in an ignore zone is not counted however long it is missing and remembered, undisturbed, approved or not |
| CountAbsence.TokenOutlivesAbsence | app/services/count_state_machine.py:404-416 | A delivery, undisturbed as there, that breaks off in the source keeps a live token, while it is remembered, for exactly as many missing updates as its time to live |
| RuntimeModel.UpdateAges | app/services/count_state_machine.py:158-166 | In an update a track shown is missing for 0 frames, another for one more, and it is remembered exactly up to max_missing_frames |
| CountChains.ChainExactly | app/services/count_state_machine.py:183-238 | A chain id committed before changes nothing; beside a nearest matching resident within the dedupe window the chain only puts the track there, a counted track stays; else exactly one count with the box, chain id and source track given, that spends and names the source track's live token, else the track's own, else is inferred |
| CountResidents.ResidentsAreCounts | app/services/count_state_machine.py:344-354 | In every run the residents are the counts, in order: same track, box and center |
| CountDelivery.DeliveryIsCounted | app/services/count_state_machine.py:144-305 | After any run, an unknown track seen in every frame, for at least source_min_frames in the source and then output_stable_frames steadily in the output, that has crossed the gate in some step up to its first frame there and is approved in the end, is counted in its last frame, once, and not before, with its box there and the token made where it had been in the source long enough; any other tracks may be seen, appear and be counted meanwhile, as long as none is first judged in the output outside the source, where it could take the token over |
| CountChoices.MatchingResidentIsNearest | app/services/count_state_machine.py:418-434 | No match is reported exactly when no resident matches; otherwise the match is the nearest matching resident, the first of equals |
| CountChoices.LenderIsLeastMissing | app/services/count_state_machine.py:380-391 | No lender is found exactly when no other track can lend; otherwise it is the one missing for the fewest frames, the first of equals |
| Geometry.CrossingMeetsLine | app/services/calibration.py:110-127 | A crossing is allowed exactly from strictly on the source side of the gate's line to strictly on the other; it meets the line in between, and the way back is never allowed |
| Geometry.OverlapIsShare | app/services/count_state_machine.py:466-481 | The overlap is the share of a box the other covers: between 0 and 1, 1 for a box inside the other, 0 for one that does not meet it, the share of areas when it contains the other |
| CountStateMachine.CountStateMachine.Update | app/services/count_state_machine.py:144-169 | The object's new state is one update step of the model, on real shared token objects; the returned events are those the step logged |
| CountStateMachine.CountStateMachine.CommitApprovedDeliveryChain | app/services/count_state_machine.py:183-238 | The object's new state is one chain step of the model; the returned event is the one logged, None when nothing was counted |
| CountStateMachine.CountStateMachine.Detect | app/services/count_state_machine.py:149-157 | Handling one detection: memory created on demand, approval set, the track judged |
| CountStateMachine.CountStateMachine.Judge | app/services/count_state_machine.py:252-305 | Ignore zone, first classification, then source, gate and output steps in the source's order |
| CountStateMachine.CountStateMachine.Classify | app/services/count_state_machine.py:260-271 | A new track beside a resident or in the output without a token to inherit stops as resident output object; else it is observed, with the inherited token if any |
| CountStateMachine.CountStateMachine.Borrow | app/services/count_state_machine.py:391-402 | The new track shares the lender's very token object, renewed and renamed, with the lender's crossing flag |
| CountStateMachine.CountStateMachine.SourceStep | app/services/count_state_machine.py:273-277 | Source frames are counted and a token minted once enough are seen and none is live |
| CountStateMachine.CountStateMachine.OutputStep | app/services/count_state_machine.py:284-303 | Output frames, missing crossing, settling and counting when stable, or resident output object |
| CountStateMachine.CountStateMachine.Miss | app/services/count_state_machine.py:159-166 | A track not detected grows older, may be counted as disappeared, and is forgotten beyond max_missing_frames |
| CountStateMachine.CountStateMachine.Commit | app/services/count_state_machine.py:322-368 | Committing consumes the held token for every track that shares it, updates the counters, stores the resident and returns the event with its authority |
| CountStateMachine.CountStateMachine.Provide | app/services/count_state_machine.py:220-229 | Which token a chain spends, and the provenance it reports |
| CountStateMachine.CountStateMachine.ExpireStaleSourceTokens | app/services/count_state_machine.py:404-411 | Stale live tokens outside the output are consumed, in track order, which matters for shared tokens |
| BoxTracker.NextFrameAnswers | app/services/runtime_event_counter.py:231-287 | After an update every box has exactly one track and every sighting its own; a track is seen now or is an old one missing one frame more and within the limit; ids are fresh or old, never reused |
| BoxTracker.NextFrameReaches | app/services/runtime_event_counter.py:239-273 | Old tracks take, in turn, the nearest box that is still free, the first of equals, and only within the match distance; one without a box had none in reach but those of other old tracks, and is kept while it may be; centers follow the boxes and new tracks get the next numbers |
| BoxTracker.NearestIsFirstNearest | app/services/runtime_event_counter.py:240-248 | The choice is the first of the nearest free boxes, none exactly when all are taken |
| BoxTracker.SimpleBoxTracker.Update | app/services/runtime_event_counter.py:231-287 | The object's new state and answer are the specified step; a box without positive size raises before anything changes |
| GateStitching.MergeIsFeeding | app/services/runtime_event_counter.py:727-756 | Merging a fragment equals having fed its observations to the predecessor, but for the displacement, whose exact value is given |
| GateStitching.StitchingIsNeverHavingSplit | app/services/runtime_event_counter.py:727-756 | Merging any number of non-empty fragments gives the frames, zones in order, centers, detections, first and last zone and overlap extremes of one accumulator fed everything, and a displacement at least as large |
| GateFragments.SummarySumsUp | app/services/runtime_event_counter.py:139-182 | A separation summary counts its samples by decision, by zone and by the crop's verdict where a crop was looked at, and keeps the largest visible part, signal and confidence |
| GateStitching.SummariesMergeExactly | app/services/runtime_event_counter.py:759-779 | Merging separation summaries is exactly summarising the concatenated samples, with None for no samples |
| GateFragments.PredecessorIsLinked | app/services/runtime_event_counter.py:479-512 | A predecessor is found exactly when some fragment is eligible: enough source and no output frames, over before the track began, within the gap and the link distance; it is the one that ended last, then the nearest, then with most source frames, then with the smallest id |
| RuntimeChains.ChainsAreComplete | app/services/runtime_event_counter.py:514-528 | In every run a track in the output with at most one source frame is linked with all the fragments there are to link, one after the other, up to three; any other track with none |
| GateFragments.FedSumsUp | app/services/runtime_event_counter.py:58-101 | An accumulator fed sightings in turn has their number, centers, first and last zone and frame, the frames in each zone, the zones seen, the farthest distance from the first center and the extreme overlaps |
| RuntimeChains.EvidenceSumsUp | app/services/runtime_event_counter.py:351-358 | In every run the accumulator of a track sums up all sightings of its id |
| GateFragments.ZonesAgree | app/services/runtime_event_counter.py:60-84 | The zone of a sighting by overlaps and, when they are equal, by center, and what the counter is told of the same sighting |
| GateStitching.PredecessorsChronological | app/services/runtime_event_counter.py:514-528 | From first seen at most last seen: the chain's ids and the track's are distinct, each fragment ends before the next begins and within the gap, each predecessor has enough source and no output frames, and there are at most three |
| GateStitching.GateAccumulator.Update | app/services/runtime_event_counter.py:58-101 | The accumulator object observes one detection exactly as specified |
| RuntimeModel.ChainsAreChronological | app/services/runtime_event_counter.py:514-528 | After any frames the predecessor chain of every track is distinct and chronological |
| RuntimeModel.FramesCoupled | app/services/runtime_event_counter.py:339-443 | While the counter remembers as long as the tracker, both hold the same missing number for every live id, in every run of frames |
| RuntimeModel.EachIdCountedAtMostOnce | app/services/runtime_event_counter.py:339-458 | While the counter remembers as long as the tracker: over any frames followed by any flushes and any gate decisions, every tracker id is counted at most once and the total never exceeds the ids issued |
| RuntimeChains.FrameCountsAreExplained | app/services/runtime_event_counter.py:374-443 | Every count that a frame of a run adds: a stable one is of a track the gate allows and the frame shows, with its box; a disappearance of one it does not show; one of a chain is of such an allowed track, and chain id and source track name the fragment that was over before all the other fragments the gate was told of began |
| RuntimeChains.AllowedAreDelivered | app/services/runtime_event_counter.py:394-428 | Every track the gate allows and the frame shows has the chain of that earliest fragment committed |
| RuntimeEvidence.AccumulatorsAreFed | app/services/runtime_event_counter.py:351-358 | After any frames the accumulator of an id is one that was fed exactly the sightings of that id, in order; an id has one exactly when it was sighted |
| RuntimeEvidence.GateSeesUnsplitDelivery | app/services/runtime_event_counter.py:374-392 | In every frame of every run the evidence the gate gets for a track with its predecessors is that of one accumulator fed all their sightings, but for a displacement at least as large |
| RuntimeScript.ScriptIsRealizable | app/services/perception_gate.py:71-147 | The run that recounts can happen: nobody in view, boxes that lie equally in the zones whenever they are equal, and in each frame exactly the ids that evaluate_track allows on the evidence of that frame |
| RuntimeRecount.ForgottenIdIsCountedAgain | app/services/runtime_event_counter.py:231-287 | Whatever gate line is configured, or none: when the tracker remembers longer than the counter, some run that can happen counts one id twice; asked of the settings: tracker and stitching share a match distance that is not negative, stitching and counter the number of source frames, stitching bridges at least one frame, the counter's limit is not negative, and a resident blocks chains for less than that limit plus two frames |
| RuntimeRecount.OncePerIdExactly | app/services/runtime_event_counter.py:291-331 | With the thresholds the runtime fixes, for every gate line or none: no run that can happen, with any number of flushes, counts an id twice if and only if tracker_max_missing_frames is at most 30 or tracker_match_distance is negative |
| RuntimeEventCounter.RuntimeEventCounter.ProcessFrame | app/services/runtime_event_counter.py:339-443 | Tracker, accumulators and counter objects together take one frame step of the model and return its events; an unusable box raises and changes nothing |
| RuntimeEventCounter.RuntimeEventCounter.FlushEndOfStream | app/services/runtime_event_counter.py:445-458 | At least one empty update, as many as asked, with no track approved |
| RuntimeEventCounter.RuntimeEventCounter.SelectGatePredecessor | app/services/runtime_event_counter.py:479-512 | The loop over the accumulators finds the specified predecessor |
| RuntimeEventCounter.RuntimeEventCounter.SelectGatePredecessorChain | app/services/runtime_event_counter.py:514-528 | The loop over at most three links builds the specified chain, earliest first |
| PlacementSpec.MidPointNeverDropped | app/services/placement_counter.py:72-80 | After any verdicts in any order the debounce test on the midpoint of the pending placement fails, so emitting never drops it |
| PlacementSpec.CountsNumberedAndApart | app/services/placement_counter.py:44-110 | For verdicts in any order, counts are numbered 1 to n with centers more than the debounce apart |
| PlacementSpec.CountsAreDisjointIntervals | app/services/placement_counter.py:98-110 | count_placements, finalized or not, yields ordered intervals that do not overlap, each starting more than the debounce after the center before |
| PlacementSpec.AssertsAreExplained | app/services/placement_counter.py:50-90 | No assert is lost: on sorted verdicts each one is in the pending placement, inside a count, or within the debounce of one |
| PlacementSpec.FinalizedAssertsAreCovered | app/services/placement_counter.py:98-110 | After a finalized batch, in any input order, every assert is inside a count or within the debounce of one |
| PlacementRuns.CounterCountsRuns | app/services/placement_counter.py:44-110 | Whatever the order, the counts are those of the runs of asserts: each refute looks back at the asserts right before it that lie beyond the debounce of the last count and makes one count of them, from the first, with the middle of first and last as center, their ids, and its own time as end; finalizing does so for the last run |
| PlacementRuns.CountsStemFromAsserts | app/services/placement_counter.py:98-110 | Every count of a batch starts at an assert, has its center half way to another assert of the same unbroken run, and names only ids of that run |
| Sorting.SortIsStable | app/services/placement_counter.py:106 | Verdicts of equal time keep their order |
| PlacementCounter.PlacementCounter.Update | app/services/placement_counter.py:44-48 | The object's fields and counts follow the specified step for one verdict |
| PlacementCounter.PlacementCounter.EmitPending | app/services/placement_counter.py:72-90 | Emitting a pending placement numbers, times and records it, or drops it as a duplicate |
| PlacementCounter.CountAll | app/services/placement_counter.py:98-110 | The batch count: sort, feed, optionally finalize; a debounce that is not positive is refused |
| LiveClipSpec.ProcessedRecorded | app/services/live_clip_counter.py:176-250 | In any run the placement counter's state and counts are those of the verdicts fed, two for each closed window, and the total is the number of counts |
| LiveClipSpec.LiveRefinesBatch | app/services/live_clip_counter.py:176-250 | For non-decreasing times, when twice the candidate gap plus the cooldown reach the bracket: verdicts are sorted, every opened window is judged exactly once, and counts and total are those of count_placements on the verdicts |
| LiveClipSpec.SortedExactlyWhenKeepsOrder | app/services/live_clip_counter.py:289-330 | Every run whose first frame does not trigger feeds sorted verdicts if and only if twice the candidate gap plus the cooldown (at least 0) reach the bracket |
| LiveClipSpec.FlushJudgesTheRest | app/services/live_clip_counter.py:252-272 | After a flush no window is open, every window was judged once, and the total is the number of all counts |
| LiveClipWindows.RunsFeedTheirWindows | app/services/live_clip_counter.py:176-250 | Every run feeds exactly the verdicts of its windows: a window opens at the first triggered frame after the gap, is extended by motion in two frames in a row after that, closes at the first other frame a cooldown after the last motion; its verdict has the answer of the closing frame, the middle of the clamped bracket and that frame's id, then the quiet follows; the counts are those of the runs of these verdicts |
| LiveClipWindows.FlushFeedsTheOpenWindow | app/services/live_clip_counter.py:252-272 | A flush feeds the open window at its last motion with the flush's answer and finalizes |
| LiveClipWindows.NoAnswerNoCount | app/services/live_clip_counter.py:345-355 | When the judge asserts no window, a run counts nothing, flushed or not |
| LiveClipCounter.LiveClipCounter.ProcessFrame | app/services/live_clip_counter.py:176-250 | The object opens, extends or closes its window as specified and returns the new counts |
| LiveClipCounter.LiveClipCounter.CloseAndJudge | app/services/live_clip_counter.py:310-382 | Closing feeds the window's verdict and the quiet verdict, in that order |
| LiveClipCounter.LiveClipCounter.Flush | app/services/live_clip_counter.py:252-272 | Flushing closes the open window and finalizes the placement counter |
| LiveClipCounter.Create | app/services/live_clip_counter.py:140-174 | Which settings the constructor accepts |
| TruthComparison.CompareAppRun | scripts/compare_factory2_app_run_to_truth_ledger.py:46-131 | The three loops over the two sorted lists compute the specified report |
| TruthComparison.ComparisonIsMaximum | scripts/compare_factory2_app_run_to_truth_ledger.py:66-131 | The matched pairs are one-to-one, ordered and within the tolerance, every event is reported exactly once, and no one-to-one pairing within the tolerance is larger |
| TruthComparison.Exchange | scripts/compare_factory2_app_run_to_truth_ledger.py:66-84 | Any pairing can be changed to contain the greedy pair at the cost of at most one pair |
| TruthComparison.ComparisonCounts | scripts/compare_factory2_app_run_to_truth_ledger.py:66-131 | matched + missing + pending = truths, matched + unexpected = observed |
| TruthComparison.NoDivergenceMeansInStep | scripts/compare_factory2_app_run_to_truth_ledger.py:64-131 | There is no first divergence if and only if the i-th truth and the i-th observed event are within the tolerance for all i and none is left over |
| TruthReport.ReportIsExact | scripts/compare_factory2_app_run_to_truth_ledger.py:64-131 | A truth is pending if and only if it is unmatched, the run is not complete, its coverage ends before the truth by more than the tolerance and no observed event lies beyond its reach; missing are the other unmatched truths, unexpected the unmatched observed events; each truth gets the first observed event within the tolerance that no earlier truth got |
| TruthReport.FirstDivergenceIsExact | scripts/compare_factory2_app_run_to_truth_ledger.py:64-131 | The first divergence is at the first events that are not within the tolerance of each other, of the kind of the one that comes first, and names an entry of its own list |
| TruthReport.PendingIsOutOfReach | scripts/compare_factory2_app_run_to_truth_ledger.py:103-112 | Without a declared coverage end a truth is pending if and only if the run is not complete, observed something, and every observed event lies before the truth by more than the tolerance |
| ExamGate.ScoreCounts | app/services/exam_gate.py:84-120 | The nested loops pair golds greedily with a nearest unused count, whatever order a set is walked in; matched + missed = golds, matched + false = counts, passed means neither is left |
| ExamGate.GreedyPairs | app/services/exam_gate.py:91-109 | The matching is one-to-one and within the tolerance |
| ExamGate.GreedyIsMaximum | app/services/exam_gate.py:91-109 | With golds pairwise more than twice the tolerance apart greedy matches every gold that any pairing matches, whatever the tie-break |
| ExamGate.GreedyIsMaximumExactly | app/services/exam_gate.py:91-109 | For all counts and all tie-breaks no pairing is larger than greedy's if and only if any two golds are equal or more than twice the tolerance apart |
| ExamGate.PassesExactlyWhenPerfect | app/services/exam_gate.py:110-120 | With any two golds equal or more than twice the tolerance apart the exam passes if and only if some perfect pairing within the tolerance exists |
| ExamGate.PassingIsExact | app/services/exam_gate.py:91-120 | For every list of golds: passing is equivalent to a perfect pairing existing, for all counts and all tie-breaks, if and only if any two golds are equal or more than twice the tolerance apart |
| ExamGate.CloseGoldsCanFail | app/services/exam_gate.py:91-109 | For every other list of golds, of any length and order, some counts have a greedy matching that is one short of a pairing |
| ExamGate.RunExam | app/services/exam_gate.py:123-160 | Candidates are judged in order, counted and scored against the given or the built-in golds |
| ExamGate.CountsNeedAsserts | app/services/exam_gate.py:123-160 | Every count of an exam lies half way between two candidates that were judged and asserted; skipped and refuted candidates are never counted |
| ExamGate.AssertedAreCounted | app/services/exam_gate.py:123-160 | When the exam finalizes, every asserted candidate is covered or debounced by a count |
| ExamGate.DefaultExamIsExact | app/services/exam_gate.py:123-160 | With the built-in golds and tolerance the exam passes if and only if a perfect pairing exists |
| Consensus.BuildConsensus | scripts/benchmark_ai_onboarding.py:255-320 | The loops compute the specified events; an agreement that is not positive is refused |
| Consensus.ConsensusIsExact | scripts/benchmark_ai_onboarding.py:255-320 | Exactly the countable labels with time, box and enough confidence are clustered, each once, in runs that each label joins within the tolerance of the mean so far; a cluster becomes an event with its mean time and its teachers if and only if it has at least the required number of distinct teachers, and the others are counted as unclear |
| Consensus.OnlyNewestFits | scripts/benchmark_ai_onboarding.py:275-285 | On sorted labels first fit finds only the newest cluster or none |
| Consensus.ClustersAreFarApart | scripts/benchmark_ai_onboarding.py:264-285 | The clusters are the sorted labels cut into runs, and any two means are more than the tolerance apart |
| Consensus.ClusterSpans | scripts/benchmark_ai_onboarding.py:264-285 | A cluster of n labels spans at most the tolerance times the harmonic number H(n-1) |
| Consensus.DriftAttainsBound | scripts/benchmark_ai_onboarding.py:264-285 | That bound is attained for every n |
| Consensus.ConsensusEventsApart | scripts/benchmark_ai_onboarding.py:287-310 | Consensus events are more than the tolerance apart and carry enough distinct teachers |
| TeacherRetry.CliTeacherProvider.VerifyPackets | app/services/cloud_teacher_providers.py:120-125 | The object labels all packets batch by batch and its usage counters follow the specification |
| TeacherRetry.CliTeacherProvider.VerifyBatch | app/services/cloud_teacher_providers.py:127-168 | One attempt, then bisection or labels, for any transport behaviour |
| TeacherRetry.AllLabelsInOrder | app/services/cloud_teacher_providers.py:120-168 | Exactly one label for each packet, in input order |
| TeacherRetry.AttemptsAreExact | app/services/cloud_teacher_providers.py:120-168 | For every failure pattern: invocations + transport errors = 2 * retries + batches, where batches is packets / batch size rounded up, packets labeled = packets, and at most 2 * packets - batches attempts are made |
| TeacherRetry.FailuresAreIsolated | app/services/cloud_teacher_providers.py:150-200 | A label is either what the teacher's entry says in an attempt that contained the packet: its decision, or unclear, and for a completed event the time of the window nearest to the one suggested, or else its center, to the millisecond; or unclear without a time after an attempt with the packet alone gave no entry |
| TeacherRetry.AllFailuresAreIsolated | app/services/cloud_teacher_providers.py:120-200 | The same for the labels of all packets, however they are cut into batches |
| TeacherRetry.CountersAreAttempts | app/services/cloud_teacher_providers.py:120-168 | The usage counters are those of the attempts made, and a retry is counted exactly for an attempt on several packets that left one without an entry |
| TeacherRetry.BatchIsBisected | app/services/cloud_teacher_providers.py:150-155 | The first attempt is on the whole batch, every further one on the first or second half of an earlier one that left a packet without an entry |
| TeacherRetry.SuggestionsStayInWindow | app/services/cloud_teacher_providers.py:435-448 | A suggested time, rounded to three decimals, lies between the rounded bounds the packet's window has, and one inside the window is only rounded |
| FrameQueue.ProducingDropsAtMostOne | app/services/frame_reader.py:328-339 | A produced frame pushes out exactly the oldest one from a full queue and none from another |
| FrameQueue.RunOrdered | app/services/frame_reader.py:150-154 | Under every interleaving of producing, consuming and discarding the queue is the block of newest sequence numbers, at most 240 long, and every frame before it has one fate |
| FrameQueue.ConsumerSeesIncreasingNumbers | app/services/frame_reader.py:150-154 | The consumer sees frames that were produced, with strictly increasing numbers |
| FrameQueue.FramesAreConserved | app/services/frame_reader.py:204-206 | produced = consumed + dropped + discarded + pending |
| FrameQueue.NothingIsLostSilently | app/services/frame_reader.py:321-339 | While the drop counter is 0 and nothing was discarded, the consumer has every frame in order and the rest is pending |
| FrameQueue.FrameReader.Start | app/services/frame_reader.py:58-90 | Starting begins a new session, with an empty queue and counters at 0, unless the same source is already running with the same demo settings: then nothing changes |
| FrameQueue.FrameReader.AppendFrame | app/services/frame_reader.py:321-339 | The locked block, with its drop loop, takes the specified step |
| FrameQueue.FrameReader.ConsumeNextFrame | app/services/frame_reader.py:150-154 | The oldest pending frame is returned and removed, None from an empty queue |
| FrameQueue.FrameReader.DiscardPendingFrames | app/services/frame_reader.py:204-206 | Everything pending is discarded, the numbering goes on |
| FrameQueue.SampledFrameIndices | app/services/frame_reader.py:485-504 | The indices are the frames within half a frame of each sampling moment, the later one on a tie, for all moments up to the last frame, or all frames when no sampling is needed |
| FrameQueue.SamplesKeepPace | app/services/frame_reader.py:498-504 | Samples strictly increase, so the guard against repeats never fires, and keep their distance within one frame |
| Onboarding.OnboardingSession.Apply | app/services/onboarding_state.py:69-124 | The chain of branches follows the table of forward moves; a missing artifact raises and changes nothing |
| Onboarding.RunIsSound | app/services/onboarding_state.py:69-124 | Every run keeps the session sound: chained history, proper entries, the artifacts of its state, every earlier state visited |
| Onboarding.DryRunNeverGoesLive | app/services/onboarding_state.py:99-104 | A dry-run session is never ready for live or live |
| Onboarding.LiveNeedsEverything | app/services/onboarding_state.py:87-122 | A session that is ready for live or live has exactly the six artifacts and passed through every state from segments_ready on |
| Onboarding.HistoryIsAPath | app/services/onboarding_state.py:151-185 | Consecutive entries chain; an entry from a state that is not terminal fails closed or strictly raises the rank; the state blocked is never entered |
| Onboarding.TerminalStays | app/services/onboarding_state.py:76-85 | From a terminal state every later call adds one history entry and changes nothing else |
| Onboarding.RefusedCallsLeaveNoTrace | app/services/onboarding_state.py:188-190 | Leaving a refused call out of a run changes nothing at all, and the same call with an artifact path is not refused |
| Onboarding.LiveStaysInReach | app/services/onboarding_state.py:87-122 | From every real session that has not failed, some calls lead to live |
| Onboarding.RunDryRunSession | app/services/onboarding_state.py:127-136 | The built-in dry run ends in review with both manifests, unless a path is empty |

## Left out

- Diagnostics of the counter: state paths, uncertain reasons, matched track ids, confidences, resident ids. Nothing decides by them. A track keeps one center; the source keeps two fields that are always equal.
- Zone overlaps: polygons and the sampling in app/services/calibration.py are not modelled; each detection comes with its zone verdicts.
- The perception gate, the separation analyzer and the crop classifier: their decisions for a frame are an arbitrary set of allowed ids, so the runtime results hold for every gate. Only the run that counts an id twice takes the gate's own decisions, in scenes without persons, where the analyzers are not asked.
- Token ids are numbers in minting order, not strings; residents and the tracker's tracks are values, since nothing aliases them.
- Rounding for reports and floating-point drift: times and coordinates are real numbers.
- process_frame after flush_end_of_stream without a reset: flushing ages the counter and not the tracker, so once-per-id is stated for frames followed by flushes.
- OutputOnlyNeverCounted: stated for updates; an approved delivery chain may count such a track, as the source intends.
- LiveRefinesBatch: for frames with times that are not negative and do not decrease; the verdict of a flush may lie before an earlier quiet time, so a flushed run is compared with feeding the verdicts in their order (FlushJudgesTheRest) and not with sorting them.
- Live clips: pixels, the motion measure, the frame buffer and the loading of the judge; a frame comes with its trigger and with the judge's answer.
- Reports: row formatting, boxes, mean confidence and frame paths of consensus events, schema versions.
- ExamGate.RunExam: the order of candidates goes by center_sec alone and 0 when absent, while the verdict falls back to center_offset_sec; the model follows the code here.
- The reader's processes, threads, sleeping and demo pump; a step of the queue is what happens under the lock.
- Session and event timestamps, ids and JSON files of onboarding; event names other than the known ones are one case.
- HTTP routes, settings, files, ffmpeg and the user interface.
