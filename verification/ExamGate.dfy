// The exam kernel of app/services/exam_gate.py: judged candidates become counts,
// and counts are matched greedily with the gold times.
module ExamGate {
  import opened Prelude
  import opened PlacementSpec
  import opened PlacementRuns
  import P = PlacementCounter
  import Sorting

  predicate Near(count: real, gold: real, tolerance: real) {
    Abs(count - gold) <= tolerance
  }

  // count c is the nearest to the gold time among those not used.
  ghost predicate Nearest(counts: seq<real>, gold: real, used: set<nat>, c: nat) {
    && c < |counts| && c !in used
    && forall d: nat :: d < |counts| && d !in used ==> Abs(counts[c] - gold) <= Abs(counts[d] - gold)
  }

  // m pairs the first n golds with counts as the greedy loop may, whichever of
  // several equally near counts it takes.
  ghost predicate Greedy(counts: seq<real>, golds: seq<real>, tolerance: real, n: nat, m: map<nat, nat>)
    requires n <= |golds|
  {
    if n == 0 then m == map[]
    else
      var before := m - {n - 1};
      && Greedy(counts, golds, tolerance, n - 1, before)
      && if n - 1 in m then
        Nearest(counts, golds[n - 1], before.Values, m[n - 1]) && Near(counts[m[n - 1]], golds[n - 1], tolerance)
      else
        forall c: nat :: c < |counts| && c !in before.Values ==> !Near(counts[c], golds[n - 1], tolerance)
  }

  datatype Score = Score(matches: map<nat, nat>, matched: int, missed: int, falseCounts: int, passed: bool)

  // Matched and missed golds make up the golds, matched and false counts the counts.
  ghost predicate IsScore(counts: seq<real>, golds: seq<real>, tolerance: real, s: Score) {
    && Greedy(counts, golds, tolerance, |golds|, s.matches)
    && s.matched == |s.matches| && s.matched + s.missed == |golds| && s.matched + s.falseCounts == |counts|
    && (s.passed <==> s.missed == 0 && s.falseCounts == 0)
  }

  // ----- the loops as the source has them; a set is walked in any order -----

  method NearestUnmatched(counts: seq<real>, gold: real, unmatched: set<nat>) returns (best: Option<nat>)
    requires forall c :: c in unmatched ==> c < |counts|
    ensures best.None? <==> unmatched == {}
    ensures best.Some? ==> best.value in unmatched
                           && forall c :: c in unmatched ==> Abs(counts[best.value] - gold) <= Abs(counts[c] - gold)
  {
    best := None;
    var left := unmatched;
    while left != {}
      invariant left <= unmatched
      invariant best.None? <==> left == unmatched
      invariant best.Some? ==> best.value in unmatched
      invariant best.Some? ==>
        forall c :: c in unmatched - left ==> Abs(counts[best.value] - gold) <= Abs(counts[c] - gold)
      decreases |left|
    {
      var c :| c in left;
      var delta := counts[c] - gold;
      if best.None? || Abs(delta) < Abs(counts[best.value] - gold) {
        best := Some(c);
      }
      left := left - {c};
    }
  }

  function Indices(n: nat): (r: set<nat>)
    ensures |r| == n && forall c: nat :: c in r <==> c < n
  {
    if n == 0 then {} else Indices(n - 1) + {n - 1}
  }

  // After g golds: what is matched follows the greedy rule and the rest is unmatched.
  ghost predicate Scored(counts: seq<real>, golds: seq<real>, tolerance: real, g: nat, matches: map<nat, nat>,
                         unmatched: set<nat>)
    requires g <= |golds|
  {
    && Greedy(counts, golds, tolerance, g, matches)
    && (forall k :: k in matches ==> k < g)
    && (forall c: nat :: c in unmatched <==> c < |counts| && c !in matches.Values)
    && |unmatched| == |counts| - |matches|
  }

  method ScoreCounts(counts: seq<real>, golds: seq<real>, tolerance: real) returns (s: Score)
    ensures IsScore(counts, golds, tolerance, s)
  {
    hide Greedy, Near, Scored;
    var unmatched := Indices(|counts|);
    var matches: map<nat, nat> := map[];
    ScoringStarts(counts, golds, tolerance);
    for g := 0 to |golds|
      invariant Scored(counts, golds, tolerance, g, matches, unmatched)
    {
      ScoredMeans(counts, golds, tolerance, g, matches, unmatched);
      var best := NearestUnmatched(counts, golds[g], unmatched);
      if best.Some? && Near(counts[best.value], golds[g], tolerance) {
        ScoringMatches(counts, golds, tolerance, g, matches, unmatched, best.value);
        unmatched := unmatched - {best.value};
        matches := matches[g := best.value];
      } else {
        ScoringMisses(counts, golds, tolerance, g, matches, unmatched, best);
      }
    }
    ScoredMeans(counts, golds, tolerance, |golds|, matches, unmatched);
    var matched := |matches|;
    s := Score(matches, matched, |golds| - matched, |unmatched|, matched == |golds| && |unmatched| == 0);
  }

  lemma ScoringStarts(counts: seq<real>, golds: seq<real>, tolerance: real)
    ensures Scored(counts, golds, tolerance, 0, map[], Indices(|counts|))
  {
  }

  lemma ScoredMeans(counts: seq<real>, golds: seq<real>, tolerance: real, g: nat, matches: map<nat, nat>,
                    unmatched: set<nat>)
    requires g <= |golds| && Scored(counts, golds, tolerance, g, matches, unmatched)
    ensures Greedy(counts, golds, tolerance, g, matches) && |unmatched| == |counts| - |matches|
    ensures forall c :: c in unmatched ==> c < |counts|
  {
    hide Greedy;
  }

  lemma ScoringMatches(counts: seq<real>, golds: seq<real>, tolerance: real, g: nat, matches: map<nat, nat>,
                       unmatched: set<nat>, c: nat)
    requires g < |golds| && Scored(counts, golds, tolerance, g, matches, unmatched)
    requires c in unmatched && c < |counts| && Near(counts[c], golds[g], tolerance)
    requires forall d :: d in unmatched && d < |counts| ==> Abs(counts[c] - golds[g]) <= Abs(counts[d] - golds[g])
    ensures Scored(counts, golds, tolerance, g + 1, matches[g := c], unmatched - {c})
  {
    hide Greedy, Near;
    assert Nearest(counts, golds[g], matches.Values, c);
    GreedyTakes(counts, golds, tolerance, g, matches, c);
    MatchOneMore(matches, g, c);
  }

  lemma ScoringMisses(counts: seq<real>, golds: seq<real>, tolerance: real, g: nat, matches: map<nat, nat>,
                      unmatched: set<nat>, best: Option<nat>)
    requires g < |golds| && Scored(counts, golds, tolerance, g, matches, unmatched)
    requires best.None? ==> unmatched == {}
    requires best.Some? ==>
      best.value < |counts| && !Near(counts[best.value], golds[g], tolerance)
      && forall c :: c in unmatched && c < |counts| ==> Abs(counts[best.value] - golds[g]) <= Abs(counts[c] - golds[g])
    ensures Scored(counts, golds, tolerance, g + 1, matches, unmatched)
  {
    hide Greedy;
    GreedySkips(counts, golds, tolerance, g, matches, unmatched, best);
  }

  lemma GreedyTakes(counts: seq<real>, golds: seq<real>, tolerance: real, g: nat, m: map<nat, nat>, c: nat)
    requires g < |golds| && Greedy(counts, golds, tolerance, g, m) && g !in m
    requires Nearest(counts, golds[g], m.Values, c) && Near(counts[c], golds[g], tolerance)
    ensures Greedy(counts, golds, tolerance, g + 1, m[g := c])
  {
    assert m[g := c] - {g} == m;
  }

  lemma GreedySkips(counts: seq<real>, golds: seq<real>, tolerance: real, g: nat, m: map<nat, nat>,
                    unmatched: set<nat>, best: Option<nat>)
    requires g < |golds| && Greedy(counts, golds, tolerance, g, m) && g !in m
    requires forall c: nat :: c < |counts| && c !in m.Values ==> c in unmatched
    requires best.None? ==> unmatched == {}
    requires best.Some? ==>
      best.value < |counts| && !Near(counts[best.value], golds[g], tolerance)
      && forall c :: c in unmatched && c < |counts| ==> Abs(counts[best.value] - golds[g]) <= Abs(counts[c] - golds[g])
    ensures Greedy(counts, golds, tolerance, g + 1, m)
  {
    assert m - {g} == m;
  }

  lemma MatchOneMore(m: map<nat, nat>, g: nat, c: nat)
    requires g !in m
    ensures m[g := c].Values == m.Values + {c} && |m[g := c]| == |m| + 1
  {
    forall v
      ensures v in m[g := c].Values <==> v in m.Values + {c}
    {
      if v in m.Values {
        var k :| k in m && m[k] == v;
        assert m[g := c][k] == v;
      }
      assert m[g := c][g] == c;
    }
  }

  // ----- every match is one-to-one and within the tolerance -----

  // Any one-to-one pairing of golds with counts within the tolerance.
  ghost predicate Pairing(counts: seq<real>, golds: seq<real>, tolerance: real, m: map<nat, nat>) {
    && (forall g :: g in m ==> g < |golds| && m[g] < |counts| && Near(counts[m[g]], golds[g], tolerance))
    && (forall g, h :: g in m && h in m && g != h ==> m[g] != m[h])
  }

  lemma {:induction false} GreedyPairs(counts: seq<real>, golds: seq<real>, tolerance: real, n: nat, m: map<nat, nat>)
    requires n <= |golds| && Greedy(counts, golds, tolerance, n, m)
    ensures Pairing(counts, golds, tolerance, m) && forall g :: g in m ==> g < n
  {
    hide Near;
    if n > 0 {
      var before := m - {n - 1};
      GreedyPairs(counts, golds, tolerance, n - 1, before);
      forall g | g in m
        ensures g < n && g < |golds| && m[g] < |counts| && Near(counts[m[g]], golds[g], tolerance)
      {
        assert g == n - 1 || g in before;
      }
      forall g, h | g in m && h in m && g != h
        ensures m[g] != m[h]
      {
        if g != n - 1 && h == n - 1 {
          assert before[g] in before.Values;
        } else if g == n - 1 {
          assert before[h] in before.Values;
        } else {
          assert g in before && h in before;
        }
      }
    }
  }

  // ----- with well separated golds, greedy is maximum -----

  ghost predicate Separated(golds: seq<real>, tolerance: real) {
    forall g, h :: 0 <= g < h < |golds| ==> Abs(golds[g] - golds[h]) > 2.0 * tolerance
  }

  // A gold with a count in reach is matched, whatever ties were broken how.
  lemma {:induction false} ReachableIsMatched(counts: seq<real>, golds: seq<real>, tolerance: real, n: nat,
                                              m: map<nat, nat>, g: nat, c: nat)
    requires n <= |golds| && Greedy(counts, golds, tolerance, n, m) && Separated(golds, tolerance)
    requires g < n && c < |counts| && Near(counts[c], golds[g], tolerance)
    ensures g in m
  {
    var before := m - {n - 1};
    GreedyPairs(counts, golds, tolerance, n - 1, before);
    if g < n - 1 {
      ReachableIsMatched(counts, golds, tolerance, n - 1, before, g, c);
    } else {
      forall h | h in before
        ensures before[h] != c
      {
        TooFarForBoth(counts[before[h]], golds[h], golds[g], tolerance);
      }
    }
  }

  lemma TooFarForBoth(count: real, a: real, b: real, tolerance: real)
    requires Abs(a - b) > 2.0 * tolerance
    ensures !(Near(count, a, tolerance) && Near(count, b, tolerance))
  {
  }

  // No pairing of counts with separated golds matches more than greedy does.
  lemma {:induction false} GreedyIsMaximum(counts: seq<real>, golds: seq<real>, tolerance: real, m: map<nat, nat>,
                                           other: map<nat, nat>)
    requires Greedy(counts, golds, tolerance, |golds|, m) && Separated(golds, tolerance)
    requires Pairing(counts, golds, tolerance, other)
    ensures other.Keys <= m.Keys && |other| <= |m|
  {
    forall g | g in other
      ensures g in m
    {
      ReachableIsMatched(counts, golds, tolerance, |golds|, m, g, other[g]);
    }
    SubsetSize(other.Keys, m.Keys);
  }

  // ----- exactly when greedy is maximum for every list of counts -----

  // Any two golds are equal or more than twice the tolerance apart.
  ghost predicate ApartOrEqual(golds: seq<real>, tolerance: real) {
    forall g, h :: 0 <= g < |golds| && 0 <= h < |golds| ==> !Rivals(golds, tolerance, g, h)
  }

  // Two different gold times that one count can be near to.
  predicate Rivals(golds: seq<real>, tolerance: real, g: nat, h: nat)
    requires g < |golds| && h < |golds|
  {
    golds[g] != golds[h] && Abs(golds[g] - golds[h]) <= 2.0 * tolerance
  }

  // A gold goes unmatched only when every count near it is used.
  lemma {:induction false} UnmatchedMeansUsed(counts: seq<real>, golds: seq<real>, tolerance: real, n: nat,
                                              m: map<nat, nat>, g: nat, c: nat)
    requires n <= |golds| && Greedy(counts, golds, tolerance, n, m)
    requires g < n && g !in m && c < |counts| && Near(counts[c], golds[g], tolerance)
    ensures c in m.Values
  {
    hide Near;
    var before := m - {n - 1};
    if g < n - 1 {
      UnmatchedMeansUsed(counts, golds, tolerance, n - 1, before, g, c);
    }
    var k :| k in before && before[k] == c;
    assert m[k] == c;
  }

  lemma {:induction false} OneToOneSize(m: map<nat, nat>)
    requires forall g, h :: g in m && h in m && g != h ==> m[g] != m[h]
    ensures |m.Values| == |m|
  {
    if m != map[] {
      var g :| g in m;
      var rest := m - {g};
      OneToOneSize(rest);
      MatchOneMore(rest, g, m[g]);
      assert rest[g := m[g]] == m;
      assert m[g] !in rest.Values;
    } else {
      assert m.Values == {};
    }
  }

  // The golds of a time for which greedy left some gold unmatched.
  ghost predicate Short(golds: seq<real>, m: map<nat, nat>, g: nat) {
    g < |golds| && exists h: nat :: h < |golds| && golds[h] == golds[g] && h !in m
  }

  ghost function ShortPart(golds: seq<real>, m: map<nat, nat>, other: map<nat, nat>): map<nat, nat> {
    map g | g in other && Short(golds, m, g) :: other[g]
  }

  lemma NearBothMeansEqual(golds: seq<real>, tolerance: real, count: real, g: nat, h: nat)
    requires ApartOrEqual(golds, tolerance) && g < |golds| && h < |golds|
    requires Near(count, golds[g], tolerance) && Near(count, golds[h], tolerance)
    ensures golds[g] == golds[h]
  {
    assert !Rivals(golds, tolerance, g, h);
  }

  // What another pairing gives to short golds, greedy has given to short golds.
  lemma ShortGoldsShare(counts: seq<real>, golds: seq<real>, tolerance: real, m: map<nat, nat>, other: map<nat, nat>)
    requires Greedy(counts, golds, tolerance, |golds|, m) && ApartOrEqual(golds, tolerance)
    requires Pairing(counts, golds, tolerance, other) && Pairing(counts, golds, tolerance, m)
    ensures ShortPart(golds, m, other).Values <= ShortPart(golds, m, m).Values
  {
    hide Near, Greedy, ApartOrEqual;
    forall c | c in ShortPart(golds, m, other).Values
      ensures c in ShortPart(golds, m, m).Values
    {
      var g :| g in other && Short(golds, m, g) && other[g] == c;
      var h: nat :| h < |golds| && golds[h] == golds[g] && h !in m;
      UnmatchedMeansUsed(counts, golds, tolerance, |golds|, m, h, c);
      var k :| k in m && m[k] == c;
      NearBothMeansEqual(golds, tolerance, counts[c], g, k);
      assert Short(golds, m, k);
      assert ShortPart(golds, m, m)[k] == c;
    }
  }

  lemma PartsAddUp(golds: seq<real>, m: map<nat, nat>, other: map<nat, nat>)
    ensures |other| == |ShortPart(golds, m, other)| + |other.Keys - ShortPart(golds, m, other).Keys|
  {
    hide Short;
    var part := ShortPart(golds, m, other).Keys;
    assert part <= other.Keys;
    assert other.Keys == part + (other.Keys - part);
  }

  lemma OthersAreMatched(golds: seq<real>, m: map<nat, nat>, other: map<nat, nat>)
    requires forall g :: g in other ==> g < |golds|
    ensures other.Keys - ShortPart(golds, m, other).Keys <= m.Keys - ShortPart(golds, m, m).Keys
  {
    forall g | g in other && !Short(golds, m, g)
      ensures g in m
    {
      assert golds[g] == golds[g];
    }
  }

  // No pairing is larger than greedy's, whatever ties were broken how.
  lemma ApartMeansMaximum(counts: seq<real>, golds: seq<real>, tolerance: real, m: map<nat, nat>, other: map<nat, nat>)
    requires Greedy(counts, golds, tolerance, |golds|, m) && ApartOrEqual(golds, tolerance)
    requires Pairing(counts, golds, tolerance, other)
    ensures |other| <= |m|
  {
    GreedyPairs(counts, golds, tolerance, |golds|, m);
    ShortGoldsShare(counts, golds, tolerance, m, other);
    OthersAreMatched(golds, m, other);
    PartsAddUp(golds, m, other);
    PartsAddUp(golds, m, m);
    PartOneToOne(counts, golds, tolerance, m, other);
    PartOneToOne(counts, golds, tolerance, m, m);
    hide Greedy, Pairing, ApartOrEqual, ShortPart;
    OneToOneSize(ShortPart(golds, m, other));
    OneToOneSize(ShortPart(golds, m, m));
    SubsetSize(ShortPart(golds, m, other).Values, ShortPart(golds, m, m).Values);
    SubsetSize(other.Keys - ShortPart(golds, m, other).Keys, m.Keys - ShortPart(golds, m, m).Keys);
  }

  lemma PartOneToOne(counts: seq<real>, golds: seq<real>, tolerance: real, m: map<nat, nat>, other: map<nat, nat>)
    requires Pairing(counts, golds, tolerance, other)
    ensures var part := ShortPart(golds, m, other);
      forall g, h :: g in part && h in part && g != h ==> part[g] != part[h]
  {
    hide Near, Short;
  }

  // ----- rivals can cost a match -----

  // Half way between a gold and its rival, then copies of the point that is one
  // tolerance from the gold on the side away from the rival.
  function Tempting(a: real, b: real, tolerance: real, n: nat): seq<real> {
    [(a + b) / 2.0] + seq(n, _ => if a < b then a - tolerance else a + tolerance)
  }

  lemma TemptingIsNear(a: real, b: real, tolerance: real)
    requires a != b && Abs(a - b) <= 2.0 * tolerance
    ensures var away := if a < b then a - tolerance else a + tolerance;
      && Near((a + b) / 2.0, a, tolerance) && Near((a + b) / 2.0, b, tolerance)
      && Near(away, a, tolerance) && !Near(away, b, tolerance)
      && Abs((a + b) / 2.0 - a) <= Abs(away - a)
  {
  }

  lemma TemptingIsFar(a: real, b: real, tolerance: real, e: real)
    requires a != b && Abs(a - b) <= 2.0 * tolerance
    requires Abs(e - a) > 2.0 * tolerance && Abs(e - b) > 2.0 * tolerance
    ensures !Near((a + b) / 2.0, e, tolerance) && !Near(if a < b then a - tolerance else a + tolerance, e, tolerance)
  {
  }

  // g is the first gold that has a rival.
  ghost predicate FirstRival(golds: seq<real>, tolerance: real, g: nat, h: nat) {
    && g < |golds| && h < |golds| && Rivals(golds, tolerance, g, h)
    && forall e, f :: 0 <= e < g && 0 <= f < |golds| ==> !Rivals(golds, tolerance, e, f)
  }

  lemma {:induction false} FindFirstRival(golds: seq<real>, tolerance: real, g: nat, h: nat) returns (g': nat, h': nat)
    requires g < |golds| && h < |golds| && Rivals(golds, tolerance, g, h)
    ensures FirstRival(golds, tolerance, g', h')
    decreases g
  {
    hide Rivals;
    if e: nat, f: nat :| e < g && f < |golds| && Rivals(golds, tolerance, e, f) {
      g', h' := FindFirstRival(golds, tolerance, e, f);
    } else {
      g', h' := g, h;
    }
  }

  // The golds before the first rival match nothing.
  lemma {:induction false} NothingTemptsEarlier(golds: seq<real>, tolerance: real, g: nat, h: nat, n: nat)
    requires FirstRival(golds, tolerance, g, h) && n <= g
    ensures Greedy(Tempting(golds[g], golds[h], tolerance, |golds|), golds, tolerance, n, map[])
  {
    hide Near;
    if n > 0 {
      NothingTemptsEarlier(golds, tolerance, g, h, n - 1);
      var e := golds[n - 1];
      assert !Rivals(golds, tolerance, n - 1, g) && !Rivals(golds, tolerance, n - 1, h);
      EarlierIsFar(golds, tolerance, g, h, n - 1);
      TemptingIsFar(golds[g], golds[h], tolerance, e);
      var none: map<nat, nat> := map[];
      assert none - {n - 1} == none;
    }
  }

  lemma EarlierIsFar(golds: seq<real>, tolerance: real, g: nat, h: nat, e: nat)
    requires FirstRival(golds, tolerance, g, h) && e < g
    ensures Abs(golds[e] - golds[g]) > 2.0 * tolerance && Abs(golds[e] - golds[h]) > 2.0 * tolerance
  {
    assert !Rivals(golds, tolerance, e, g) && !Rivals(golds, tolerance, e, h);
  }

  // Greedy can always go on, to any later gold.
  lemma {:induction false} GreedyGoesOn(counts: seq<real>, golds: seq<real>, tolerance: real, n: nat, m: map<nat, nat>,
                                        end: nat)
    returns (all: map<nat, nat>)
    requires n <= end <= |golds| && Greedy(counts, golds, tolerance, n, m)
    ensures Greedy(counts, golds, tolerance, end, all)
    ensures forall k :: k in m ==> k in all && all[k] == m[k]
    decreases end - n
  {
    hide Greedy, Near, Pairing;
    all := m;
    if n < end {
      GreedyPairs(counts, golds, tolerance, n, m);
      if c: nat :| Nearest(counts, golds[n], m.Values, c) && Near(counts[c], golds[n], tolerance) {
        GreedyTakes(counts, golds, tolerance, n, m, c);
        all := GreedyGoesOn(counts, golds, tolerance, n + 1, m[n := c], end);
      } else {
        NoneNear(counts, golds[n], tolerance, m.Values);
        GreedyLeaves(counts, golds, tolerance, n, m);
        all := GreedyGoesOn(counts, golds, tolerance, n + 1, m, end);
      }
    }
  }

  lemma GreedyLeaves(counts: seq<real>, golds: seq<real>, tolerance: real, g: nat, m: map<nat, nat>)
    requires g < |golds| && Greedy(counts, golds, tolerance, g, m) && g !in m
    requires forall c: nat :: c < |counts| && c !in m.Values ==> !Near(counts[c], golds[g], tolerance)
    ensures Greedy(counts, golds, tolerance, g + 1, m)
  {
    assert m - {g} == m;
  }

  // When no nearest unused count is near, no unused count is.
  lemma NoneNear(counts: seq<real>, gold: real, tolerance: real, used: set<nat>)
    requires forall c: nat :: Nearest(counts, gold, used, c) ==> !Near(counts[c], gold, tolerance)
    ensures forall c: nat :: c < |counts| && c !in used ==> !Near(counts[c], gold, tolerance)
  {
    var best := FindNearest(counts, gold, used, |counts|);
    if best.Some? {
      assert Nearest(counts, gold, used, best.value);
    }
  }

  lemma {:induction false} FindNearest(counts: seq<real>, gold: real, used: set<nat>, n: nat) returns (r: Option<nat>)
    requires n <= |counts|
    ensures r.None? ==> forall c: nat :: c < n ==> c in used
    ensures r.Some? ==> r.value < n && r.value !in used
                        && forall c: nat :: c < n && c !in used ==> Abs(counts[r.value] - gold) <= Abs(counts[c] - gold)
  {
    r := None;
    if n > 0 {
      r := FindNearest(counts, gold, used, n - 1);
      if n - 1 !in used && (r.None? || Abs(counts[n - 1] - gold) < Abs(counts[r.value] - gold)) {
        r := Some(n - 1);
      }
    }
  }

  // The rival's turn comes later, when the only count near it is taken.
  lemma RivalGoesWithout(golds: seq<real>, tolerance: real, g: nat, h: nat, m: map<nat, nat>)
    requires FirstRival(golds, tolerance, g, h) && g in m && m[g] == 0
    requires Pairing(Tempting(golds[g], golds[h], tolerance, |golds|), golds, tolerance, m)
    ensures h !in m
  {
    hide Near, Pairing;
    TemptingIsNear(golds[g], golds[h], tolerance);
    if h in m {
      PairingAt(Tempting(golds[g], golds[h], tolerance, |golds|), golds, tolerance, m, g, h);
    }
  }

  lemma PairingAt(counts: seq<real>, golds: seq<real>, tolerance: real, m: map<nat, nat>, g: nat, h: nat)
    requires Pairing(counts, golds, tolerance, m) && g in m && h in m && g != h
    ensures m[g] != m[h] && h < |golds| && m[h] < |counts| && Near(counts[m[h]], golds[h], tolerance)
  {
    hide Near;
  }

  lemma UnusedCopy(n: nat, m: map<nat, nat>, h: nat) returns (c: nat)
    requires h < n && h !in m && 0 in m.Values
    requires forall g, k :: g in m && k in m && g != k ==> m[g] != m[k]
    requires forall g :: g in m ==> g < n
    ensures 1 <= c <= n && c !in m.Values
  {
    OneToOneSize(m);
    SubsetSize(m.Keys, Indices(n) - {h});
    if Indices(n + 1) <= m.Values {
      SubsetSize(Indices(n + 1), m.Values);
    }
    c :| c in Indices(n + 1) && c !in m.Values;
  }

  // A list of golds with rivals, in any place and number, has counts for which
  // some greedy matching is one short of a pairing.
  lemma CloseGoldsCanFail(golds: seq<real>, tolerance: real) returns (counts: seq<real>, m: map<nat, nat>,
                          other: map<nat, nat>)
    requires !ApartOrEqual(golds, tolerance)
    ensures Greedy(counts, golds, tolerance, |golds|, m) && Pairing(counts, golds, tolerance, other)
    ensures |other| == |m| + 1
  {
    hide Greedy, Near, Pairing;
    var g0: nat, h0: nat :| g0 < |golds| && h0 < |golds| && Rivals(golds, tolerance, g0, h0);
    var g, h := FindFirstRival(golds, tolerance, g0, h0);
    counts := Tempting(golds[g], golds[h], tolerance, |golds|);
    NothingTemptsEarlier(golds, tolerance, g, h, g);
    TemptingIsNear(golds[g], golds[h], tolerance);
    var none: map<nat, nat> := map[];
    assert Nearest(counts, golds[g], none.Values, 0);
    GreedyTakes(counts, golds, tolerance, g, none, 0);
    m := GreedyGoesOn(counts, golds, tolerance, g + 1, none[g := 0], |golds|);
    GreedyPairs(counts, golds, tolerance, |golds|, m);
    RivalGoesWithout(golds, tolerance, g, h, m);
    other := Swapped(golds, tolerance, g, h, counts, m);
  }

  // The first rival moves to a copy and leaves its count to the other.
  lemma Swapped(golds: seq<real>, tolerance: real, g: nat, h: nat, counts: seq<real>, m: map<nat, nat>)
    returns (other: map<nat, nat>)
    requires g < |golds| && h < |golds| && Rivals(golds, tolerance, g, h)
    requires counts == Tempting(golds[g], golds[h], tolerance, |golds|) && Pairing(counts, golds, tolerance, m)
    requires g in m && m[g] == 0 && h !in m
    ensures Pairing(counts, golds, tolerance, other) && |other| == |m| + 1
  {
    hide Near, Tempting;
    TemptingIsNear(golds[g], golds[h], tolerance);
    TemptingCopies(golds[g], golds[h], tolerance, |golds|);
    assert m[g] in m.Values;
    var c := UnusedCopy(|golds|, m, h);
    other := m[g := c][h := 0];
    assert other.Keys == m.Keys + {h};
    forall k | k in m && k != g
      ensures m[k] != c && m[k] != 0
    {
      assert m[k] in m.Values;
    }
    SwappedPairs(counts, golds, tolerance, g, h, c, m);
  }

  lemma TemptingCopies(a: real, b: real, tolerance: real, n: nat)
    ensures var counts := Tempting(a, b, tolerance, n);
      && |counts| == n + 1 && counts[0] == (a + b) / 2.0
      && forall c :: 1 <= c <= n ==> counts[c] == if a < b then a - tolerance else a + tolerance
  {
  }

  lemma SwappedPairs(counts: seq<real>, golds: seq<real>, tolerance: real, g: nat, h: nat, c: nat, m: map<nat, nat>)
    requires Pairing(counts, golds, tolerance, m) && g in m && h !in m && h < |golds|
    requires 0 < c < |counts| && Near(counts[c], golds[g], tolerance) && Near(counts[0], golds[h], tolerance)
    requires forall k :: k in m && k != g ==> m[k] != c && m[k] != 0
    ensures Pairing(counts, golds, tolerance, m[g := c][h := 0])
  {
    hide Near;
  }

  // For all counts and all tie-breaks greedy is maximum if and only if any two
  // golds are equal or more than twice the tolerance apart.
  lemma GreedyIsMaximumExactly(golds: seq<real>, tolerance: real)
    ensures ApartOrEqual(golds, tolerance)
            <==> forall counts, m, other ::
                   Greedy(counts, golds, tolerance, |golds|, m) && Pairing(counts, golds, tolerance, other) ==>
                   |other| <= |m|
  {
    if ApartOrEqual(golds, tolerance) {
      forall counts, m, other |
        Greedy(counts, golds, tolerance, |golds|, m) && Pairing(counts, golds, tolerance, other)
        ensures |other| <= |m|
      {
        ApartMeansMaximum(counts, golds, tolerance, m, other);
      }
    } else {
      hide Greedy, Pairing;
      var counts, m, other := CloseGoldsCanFail(golds, tolerance);
    }
  }

  // ----- passing -----

  ghost predicate Perfect(counts: seq<real>, golds: seq<real>, tolerance: real, m: map<nat, nat>) {
    Pairing(counts, golds, tolerance, m) && |m| == |golds| == |counts|
  }

  // Passing always exhibits a perfect pairing.
  lemma PassingIsPerfect(counts: seq<real>, golds: seq<real>, tolerance: real, m: map<nat, nat>)
    requires Greedy(counts, golds, tolerance, |golds|, m) && |m| == |golds| == |counts|
    ensures Perfect(counts, golds, tolerance, m)
  {
    GreedyPairs(counts, golds, tolerance, |golds|, m);
  }

  lemma PairingSize(counts: seq<real>, golds: seq<real>, tolerance: real, m: map<nat, nat>)
    requires Pairing(counts, golds, tolerance, m)
    ensures |m| <= |golds|
  {
    RangeSize(set g: nat | g in m.Keys :: g as int, 0, |golds|);
    assert m.Keys == set g: nat | g in m.Keys :: g as int;
  }

  // With such golds the exam passes exactly when a perfect pairing exists.
  lemma {:induction false} PassesExactlyWhenPerfect(counts: seq<real>, golds: seq<real>, tolerance: real,
                                                    m: map<nat, nat>)
    requires Greedy(counts, golds, tolerance, |golds|, m) && ApartOrEqual(golds, tolerance)
    ensures (|m| == |golds| == |counts|) <==> exists other :: Perfect(counts, golds, tolerance, other)
  {
    if |m| == |golds| == |counts| {
      PassingIsPerfect(counts, golds, tolerance, m);
    }
    if other :| Perfect(counts, golds, tolerance, other) {
      ApartMeansMaximum(counts, golds, tolerance, m, other);
      GreedyPairs(counts, golds, tolerance, |golds|, m);
      PairingSize(counts, golds, tolerance, m);
    }
  }

  // A count for each gold: those for b as near to a as b allows, the others one
  // tolerance away from their gold and from b.
  function Lure(a: real, b: real, tolerance: real, e: real): real {
    if e == b then
      if Abs(a - b) <= tolerance then a else if b < a then b + tolerance else b - tolerance
    else if e > b then e + tolerance
    else e - tolerance
  }

  function Lures(a: real, b: real, tolerance: real, golds: seq<real>): seq<real> {
    seq(|golds|, i requires 0 <= i < |golds| => Lure(a, b, tolerance, golds[i]))
  }

  lemma LureIsNear(a: real, b: real, tolerance: real, e: real)
    requires a != b && Abs(a - b) <= 2.0 * tolerance
    ensures Near(Lure(a, b, tolerance, e), e, tolerance) && Near(Lure(a, b, tolerance, b), a, tolerance)
    ensures e != b ==> !Near(Lure(a, b, tolerance, e), b, tolerance)
    ensures Abs(e - b) > 2.0 * tolerance ==> !Near(Lure(a, b, tolerance, b), e, tolerance)
  {
  }

  // While no gold between a and b is a rival of a, nothing is nearer to a than a
  // count for b.
  lemma LureIsNearest(a: real, b: real, tolerance: real, e: real)
    requires a != b && Abs(a - b) <= 2.0 * tolerance
    requires e != a && Abs(a - e) <= 2.0 * tolerance ==> Abs(a - b) <= Abs(a - e)
    ensures Abs(Lure(a, b, tolerance, b) - a) <= Abs(Lure(a, b, tolerance, e) - a)
  {
  }

  // h is a nearest rival of g.
  lemma {:induction false} NearestRival(golds: seq<real>, tolerance: real, g: nat, h: nat) returns (h': nat)
    requires g < |golds| && h < |golds| && Rivals(golds, tolerance, g, h)
    ensures h' < |golds| && Rivals(golds, tolerance, g, h')
    ensures forall k :: 0 <= k < |golds| && Rivals(golds, tolerance, g, k) ==>
      Abs(golds[g] - golds[h']) <= Abs(golds[g] - golds[k])
  {
    h' := h;
    for n := 0 to |golds|
      invariant h' < |golds| && Rivals(golds, tolerance, g, h')
      invariant forall k :: 0 <= k < n && Rivals(golds, tolerance, g, k) ==>
        Abs(golds[g] - golds[h']) <= Abs(golds[g] - golds[k])
    {
      if Rivals(golds, tolerance, g, n) && Abs(golds[g] - golds[n]) < Abs(golds[g] - golds[h']) {
        h' := n;
      }
    }
  }

  // The golds before the first that has a rival leave the counts for b unused.
  lemma LureIsFree(golds: seq<real>, tolerance: real, g: nat, h: nat, m: map<nat, nat>)
    requires FirstRival(golds, tolerance, g, h)
    requires Greedy(Lures(golds[g], golds[h], tolerance, golds), golds, tolerance, g, m)
    ensures h !in m.Values
  {
    hide Near, Greedy, Lure;
    GreedyPairs(Lures(golds[g], golds[h], tolerance, golds), golds, tolerance, g, m);
    if h in m.Values {
      var k :| k in m && m[k] == h;
      EarlierIsFar(golds, tolerance, g, h, k);
      LureIsNear(golds[g], golds[h], tolerance, golds[k]);
    }
  }

  ghost function OfTime(golds: seq<real>, b: real): (r: set<nat>)
    ensures forall k: nat :: k in r <==> k < |golds| && golds[k] == b
  {
    set k | k in Indices(|golds|) && golds[k] == b
  }

  // A gold of time b is near to no count but those for b.
  lemma OnlyItsLures(golds: seq<real>, tolerance: real, g: nat, h: nat, m: map<nat, nat>, k: nat)
    requires g < |golds| && h < |golds| && Rivals(golds, tolerance, g, h)
    requires Pairing(Lures(golds[g], golds[h], tolerance, golds), golds, tolerance, m)
    requires k in m && golds[k] == golds[h]
    ensures m[k] in OfTime(golds, golds[h])
  {
    hide Near, Lure;
    LureIsNear(golds[g], golds[h], tolerance, golds[m[k]]);
  }

  // Once a has taken a count for b, too few are left for the golds of time b.
  lemma LuredFails(golds: seq<real>, tolerance: real, g: nat, h: nat, m: map<nat, nat>)
    requires g < |golds| && h < |golds| && Rivals(golds, tolerance, g, h) && g in m && m[g] == h
    requires Pairing(Lures(golds[g], golds[h], tolerance, golds), golds, tolerance, m)
    ensures |m| < |golds|
  {
    hide Near, Lures;
    var mine := OfTime(golds, golds[h]);
    var all := Indices(|golds|);
    SubsetSize(m.Keys, all);
    if |m| == |golds| {
      SameSizeSame(m.Keys, all);
      forall k | k in mine
        ensures m[k] in mine
      {
        OnlyItsLures(golds, tolerance, g, h, m, k);
      }
      hide Pairing, OfTime, Rivals;
      Pigeons(m, mine, g);
    }
  }

  // A one-to-one map that keeps a finite set brings no other key into it.
  lemma Pigeons(m: map<nat, nat>, mine: set<nat>, g: nat)
    requires forall j, k :: j in m && k in m && j != k ==> m[j] != m[k]
    requires g in m && m[g] in mine && forall k :: k in mine ==> k in m && m[k] in mine
    ensures g in mine
  {
    var part := map k | k in mine :: m[k];
    OneToOneSize(part);
    assert part.Keys == mine;
    assert part.Values <= mine;
    SameSizeSame(part.Values, mine);
    var k :| k in part && part[k] == m[g];
  }

  lemma SameSizeSame(a: set<nat>, b: set<nat>)
    requires a <= b && |a| == |b|
    ensures a == b
  {
    if x :| x in b && x !in a {
      SubsetSize(a, b - {x});
    }
  }

  lemma GreedyStarts(counts: seq<real>, golds: seq<real>, tolerance: real)
    ensures Greedy(counts, golds, tolerance, 0, map[])
  {
  }

  // Golds with rivals have as many counts, each near its own gold, that some
  // tie-break refuses.
  lemma RivalsCanBeRefused(golds: seq<real>, tolerance: real)
    returns (counts: seq<real>, m: map<nat, nat>, other: map<nat, nat>)
    requires !ApartOrEqual(golds, tolerance)
    ensures Greedy(counts, golds, tolerance, |golds|, m) && |m| < |golds| == |counts|
    ensures Perfect(counts, golds, tolerance, other)
  {
    hide Greedy, Near, Lure, Pairing;
    var g0: nat, h0: nat :| g0 < |golds| && h0 < |golds| && Rivals(golds, tolerance, g0, h0);
    var g, h1 := FindFirstRival(golds, tolerance, g0, h0);
    var h := NearestRival(golds, tolerance, g, h1);
    counts := Lures(golds[g], golds[h], tolerance, golds);
    var none: map<nat, nat> := map[];
    assert Greedy(counts, golds, tolerance, 0, none) by { GreedyStarts(counts, golds, tolerance); }
    var before := GreedyGoesOn(counts, golds, tolerance, 0, none, g);
    LureIsFree(golds, tolerance, g, h, before);
    LureIsNear(golds[g], golds[h], tolerance, golds[h]);
    forall d: nat | d < |counts|
      ensures Abs(counts[h] - golds[g]) <= Abs(counts[d] - golds[g])
    {
      LureIsNearest(golds[g], golds[h], tolerance, golds[d]);
    }
    GreedyPairs(counts, golds, tolerance, g, before);
    GreedyTakes(counts, golds, tolerance, g, before, h);
    m := GreedyGoesOn(counts, golds, tolerance, g + 1, before[g := h], |golds|);
    GreedyPairs(counts, golds, tolerance, |golds|, m);
    LuredFails(golds, tolerance, g, h, m);
    other := map k | k in Indices(|golds|) :: k;
    EachItsOwn(golds, tolerance, golds[g], golds[h], other);
  }

  lemma EachItsOwn(golds: seq<real>, tolerance: real, a: real, b: real, own: map<nat, nat>)
    requires a != b && Abs(a - b) <= 2.0 * tolerance
    requires own == map k | k in Indices(|golds|) :: k
    ensures Perfect(Lures(a, b, tolerance, golds), golds, tolerance, own)
  {
    hide Near, Lure;
    forall k | k in own
      ensures Near(Lures(a, b, tolerance, golds)[own[k]], golds[k], tolerance)
    {
      LureIsNear(a, b, tolerance, golds[k]);
    }
    assert own.Keys == Indices(|golds|);
  }

  // Passing means that a perfect pairing exists, for all counts and all
  // tie-breaks, if and only if any two golds are equal or more than twice the
  // tolerance apart.
  lemma PassingIsExact(golds: seq<real>, tolerance: real)
    ensures ApartOrEqual(golds, tolerance)
            <==> forall counts, m :: Greedy(counts, golds, tolerance, |golds|, m) ==>
                   ((|m| == |golds| == |counts|) <==> exists other :: Perfect(counts, golds, tolerance, other))
  {
    hide Greedy, Perfect, Rivals;
    if ApartOrEqual(golds, tolerance) {
      forall counts, m | Greedy(counts, golds, tolerance, |golds|, m)
        ensures (|m| == |golds| == |counts|) <==> exists other :: Perfect(counts, golds, tolerance, other)
      {
        PassesExactlyWhenPerfect(counts, golds, tolerance, m);
      }
    } else {
      var counts, m, other := RivalsCanBeRefused(golds, tolerance);
      assert Perfect(counts, golds, tolerance, other);
    }
  }

  // ----- the whole exam -----

  const DEFAULT_GOLD: seq<real> := [165.0, 510.0, 781.0, 1104.0, 1475.0, 1822.0, 2172.0]

  datatype Candidate = Candidate(
    center: Option<real>,
    centerOffset: Option<real>,
    skipped: bool,
    judgedAssert: bool,
    id: string)

  function SortKey(c: Candidate): real {
    c.center.GetOr(0.0)
  }

  function Before(a: Candidate, b: Candidate): bool {
    SortKey(a) <= SortKey(b)
  }

  function VerdictOf(c: Candidate): Verdict {
    Verdict(if c.center.Some? then c.center.value else c.centerOffset.GetOr(0.0),
            !c.skipped && c.judgedAssert, c.id)
  }

  function Verdicts(candidates: seq<Candidate>): seq<Verdict> {
    seq(|candidates|, i requires 0 <= i < |candidates| => VerdictOf(candidates[i]))
  }

  function Centers(counts: seq<Count>): seq<real> {
    seq(|counts|, i requires 0 <= i < |counts| => counts[i].center)
  }

  function Gold(offsets: seq<real>): seq<real> {
    if offsets == [] then DEFAULT_GOLD else offsets
  }

  // The count times of an exam run.
  function ExamCounts(candidates: seq<Candidate>, debounce: real, finalizeAtEnd: bool): seq<real> {
    Centers(CountPlacements(Verdicts(Sorting.Sort(Before, candidates)), debounce, finalizeAtEnd))
  }

  method RunExam(candidates: seq<Candidate>, offsets: seq<real>, debounce: real, tolerance: real, finalizeAtEnd: bool)
    returns (r: Result<Score>)
    ensures r.Failure? <==> debounce <= 0.0
    ensures r.Success? ==>
      IsScore(ExamCounts(candidates, debounce, finalizeAtEnd), Gold(offsets), tolerance, r.value)
  {
    var golds := Gold(offsets);
    var sorted := Sorting.Sort(Before, candidates);
    var verdicts: seq<Verdict> := [];
    for i := 0 to |sorted|
      invariant verdicts == Verdicts(sorted[..i])
    {
      verdicts := verdicts + [VerdictOf(sorted[i])];
    }
    assert sorted[..|sorted|] == sorted;
    var counted := P.CountAll(verdicts, debounce, finalizeAtEnd);
    if counted.Failure? {
      return Failure(counted.error);
    }
    hide IsScore;
    var score := ScoreCounts(Centers(counted.value), golds, tolerance);
    r := Success(score);
  }

  // The built-in gold is separated for the default tolerance of 20 seconds, so
  // the default exam passes exactly when its counts pair perfectly.
  lemma {:induction false} DefaultExamIsExact(candidates: seq<Candidate>, debounce: real, finalizeAtEnd: bool,
                                              m: map<nat, nat>)
    requires Greedy(ExamCounts(candidates, debounce, finalizeAtEnd), DEFAULT_GOLD, 20.0, 7, m)
    ensures var counts := ExamCounts(candidates, debounce, finalizeAtEnd);
      (|m| == 7 == |counts|) <==> exists other :: Perfect(counts, DEFAULT_GOLD, 20.0, other)
  {
    hide ExamCounts, Greedy, Perfect;
    assert ApartOrEqual(DEFAULT_GOLD, 20.0);
    PassesExactlyWhenPerfect(ExamCounts(candidates, debounce, finalizeAtEnd), DEFAULT_GOLD, 20.0, m);
  }

  // ----- what the exam counts -----

  // The time a candidate stands for.
  function CandidateTime(c: Candidate): real {
    match (c.center, c.centerOffset)
    case (Some(t), _) => t
    case (None, Some(t)) => t
    case (None, None) => 0.0
  }

  // The candidate was shown to the judge, and the judge asserted it.
  predicate Asserts(c: Candidate) {
    !c.skipped && c.judgedAssert
  }

  // Every count lies half way between two candidates that were judged and
  // asserted; skipped and refuted ones are never counted.
  lemma CountsNeedAsserts(candidates: seq<Candidate>, debounce: real, finalizeAtEnd: bool, t: real)
    requires t in ExamCounts(candidates, debounce, finalizeAtEnd)
    ensures exists a, b :: a in candidates && b in candidates && Asserts(a) && Asserts(b)
                           && t == (CandidateTime(a) + CandidateTime(b)) / 2.0
  {
    hide CountPlacements, Sorting.Sort;
    var sorted := Sorting.Sort(Before, candidates);
    var vs := Verdicts(sorted);
    var counts := CountPlacements(vs, debounce, finalizeAtEnd);
    var k :| 0 <= k < |counts| && counts[k].center == t;
    CountsStemFromAsserts(vs, debounce, finalizeAtEnd, counts[k]);
    var inOrder := Sorting.Sort(NotLater, vs);
    var i: nat, j: nat :| i <= j < |inOrder| && Between(inOrder, counts[k], i, j);
    var a := CandidateOf(candidates, inOrder[i]);
    var b := CandidateOf(candidates, inOrder[j]);
  }

  lemma CandidateOf(candidates: seq<Candidate>, v: Verdict) returns (c: Candidate)
    requires v in Sorting.Sort(NotLater, Verdicts(Sorting.Sort(Before, candidates)))
    ensures c in candidates && v.center == CandidateTime(c) && (v.asserted <==> Asserts(c))
  {
    hide Sorting.Sort;
    var sorted := Sorting.Sort(Before, candidates);
    Sorting.SortMembers(NotLater, Verdicts(sorted));
    Sorting.SortMembers(Before, candidates);
    var k :| 0 <= k < |sorted| && Verdicts(sorted)[k] == v;
    c := sorted[k];
  }

  // When the exam finalizes, every asserted candidate is accounted for: a count
  // covers it or debounces it.
  lemma AssertedAreCounted(candidates: seq<Candidate>, debounce: real, c: Candidate)
    requires c in candidates && Asserts(c)
    ensures var counts := CountPlacements(Verdicts(Sorting.Sort(Before, candidates)), debounce, true);
      exists k :: 0 <= k < |counts| && Covers(counts[k], debounce, CandidateTime(c))
  {
    hide CountPlacements, Sorting.Sort, Covers;
    var sorted := Sorting.Sort(Before, candidates);
    Sorting.SortMembers(Before, candidates);
    assert c in sorted;
    var i :| 0 <= i < |sorted| && sorted[i] == c;
    var v := Verdicts(sorted)[i];
    assert v == VerdictOf(c) && v.asserted && v.center == CandidateTime(c);
    FinalizedAssertsAreCovered(Verdicts(sorted), debounce, i);
    var counts := CountPlacements(Verdicts(sorted), debounce, true);
    var k :| 0 <= k < |counts| && Covers(counts[k], debounce, v.center);
    assert Covers(counts[k], debounce, CandidateTime(c));
    assert counts == CountPlacements(Verdicts(Sorting.Sort(Before, candidates)), debounce, true);
  }
}
