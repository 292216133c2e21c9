// build_consensus of scripts/benchmark_ai_onboarding.py: first-fit clustering of
// time-sorted teacher labels around running means.
module Consensus {
  import opened Prelude
  import Sorting

  datatype Box = Box(x1: real, y1: real, x2: real, y2: real)

  datatype Label = Label(
    teacherId: string,
    countable: bool,
    ts: Option<real>,
    box: Option<Box>,
    confidence: real)

  datatype Event = Event(cluster: nat, ts: real, teachers: set<string>)

  datatype Outcome = Outcome(events: seq<Event>, unclear: nat)

  type Cluster = c: seq<Label> | c != [] witness [Label("", false, None, None, 0.0)]

  function Time(l: Label): real {
    l.ts.GetOr(0.0)
  }

  function Earlier(a: Label, b: Label): bool {
    Time(a) <= Time(b)
  }

  predicate IsCandidate(l: Label, minConfidence: real) {
    l.countable && l.ts.Some? && l.box.Some? && l.confidence >= minConfidence
  }

  function Candidates(labels: seq<Label>, minConfidence: real): seq<Label> {
    if labels == [] then []
    else
      var before := Candidates(labels[..|labels| - 1], minConfidence);
      if IsCandidate(labels[|labels| - 1], minConfidence) then before + [labels[|labels| - 1]] else before
  }

  function Sum(c: seq<Label>): real {
    if c == [] then 0.0 else Sum(c[..|c| - 1]) + Time(c[|c| - 1])
  }

  function Mean(c: Cluster): real {
    Sum(c) / |c| as real
  }

  // The first of the clusters from k on whose mean is near enough.
  function FirstFit(clusters: seq<Cluster>, l: Label, tolerance: real, k: nat): (r: nat)
    requires k <= |clusters|
    ensures k <= r <= |clusters|
    ensures r < |clusters| ==> Abs(Time(l) - Mean(clusters[r])) <= tolerance
    ensures forall i :: k <= i < r ==> !(Abs(Time(l) - Mean(clusters[i])) <= tolerance)
    decreases |clusters| - k
  {
    if k == |clusters| || Abs(Time(l) - Mean(clusters[k])) <= tolerance then k
    else FirstFit(clusters, l, tolerance, k + 1)
  }

  function Place(clusters: seq<Cluster>, l: Label, tolerance: real): seq<Cluster> {
    var k := FirstFit(clusters, l, tolerance, 0);
    if k < |clusters| then clusters[k := clusters[k] + [l]] else clusters + [[l]]
  }

  function Clusters(labels: seq<Label>, tolerance: real): seq<Cluster> {
    if labels == [] then []
    else Place(Clusters(labels[..|labels| - 1], tolerance), labels[|labels| - 1], tolerance)
  }

  function Teachers(c: Cluster): set<string> {
    set l | l in c :: l.teacherId
  }

  function Agreed(clusters: seq<Cluster>, minAgreement: int): Outcome {
    if clusters == [] then Outcome([], 0)
    else
      var before := Agreed(clusters[..|clusters| - 1], minAgreement);
      var c := clusters[|clusters| - 1];
      if |Teachers(c)| < minAgreement then before.(unclear := before.unclear + 1)
      else before.(events := before.events + [Event(|clusters|, Mean(c), Teachers(c))])
  }

  function Consensus(labels: seq<Label>, minAgreement: int, minConfidence: real, tolerance: real): Outcome {
    Agreed(Clusters(Sorting.Sort(Earlier, Candidates(labels, minConfidence)), tolerance), minAgreement)
  }

  // ----- the loops as the source has them -----

  method MeanTime(c: Cluster) returns (mean: real)
    ensures mean == Mean(c)
  {
    var sum := 0.0;
    for i := 0 to |c|
      invariant sum == Sum(c[..i])
    {
      assert c[..i + 1][..i] == c[..i];
      sum := sum + Time(c[i]);
    }
    assert c[..|c|] == c;
    mean := sum / |c| as real;
  }

  method ClusterLabels(labels: seq<Label>, tolerance: real) returns (clusters: seq<Cluster>)
    ensures clusters == Clusters(labels, tolerance)
  {
    hide FirstFit, Mean;
    clusters := [];
    for i := 0 to |labels|
      invariant clusters == Clusters(labels[..i], tolerance)
    {
      assert labels[..i + 1][..i] == labels[..i];
      clusters := PlaceLabel(clusters, labels[i], tolerance);
    }
    assert labels[..|labels|] == labels;
  }

  method PlaceLabel(clusters: seq<Cluster>, l: Label, tolerance: real) returns (r: seq<Cluster>)
    ensures r == Place(clusters, l, tolerance)
  {
    var k := 0;
    while k < |clusters|
      invariant 0 <= k <= |clusters|
      invariant FirstFit(clusters, l, tolerance, 0) == FirstFit(clusters, l, tolerance, k)
    {
      var center := MeanTime(clusters[k]);
      if Abs(Time(l) - center) <= tolerance {
        return clusters[k := clusters[k] + [l]];
      }
      k := k + 1;
    }
    return clusters + [[l]];
  }

  method BuildConsensus(labels: seq<Label>, minAgreement: int, minConfidence: real, tolerance: real)
    returns (r: Result<Outcome>)
    ensures r.Failure? <==> minAgreement <= 0
    ensures r.Success? ==> r.value == Consensus(labels, minAgreement, minConfidence, tolerance)
  {
    if minAgreement <= 0 {
      return Failure("min teacher agreement must be positive");
    }
    var clusters := ClusterLabels(Sorting.Sort(Earlier, Candidates(labels, minConfidence)), tolerance);
    var outcome := Outcome([], 0);
    for i := 0 to |clusters|
      invariant outcome == Agreed(clusters[..i], minAgreement)
    {
      assert clusters[..i + 1][..i] == clusters[..i];
      if |Teachers(clusters[i])| < minAgreement {
        outcome := outcome.(unclear := outcome.unclear + 1);
      } else {
        var center := MeanTime(clusters[i]);
        outcome := outcome.(events := outcome.events + [Event(i + 1, center, Teachers(clusters[i]))]);
      }
    }
    assert clusters[..|clusters|] == clusters;
    r := Success(outcome);
  }

  // ----- means of ordered clusters -----

  ghost predicate Ordered(c: seq<Label>) {
    Sorting.Ordered(Earlier, c)
  }

  lemma {:induction false} SumBounds(c: seq<Label>, low: real, high: real)
    requires forall i :: 0 <= i < |c| ==> low <= Time(c[i]) <= high
    ensures low * (|c| as real) <= Sum(c) <= high * (|c| as real)
  {
    if c != [] {
      var front := c[..|c| - 1];
      SumBounds(front, low, high);
      assert low * (|c| as real) == low * (|front| as real) + low;
      assert high * (|c| as real) == high * (|front| as real) + high;
    }
  }

  lemma DivideBounds(x: real, n: real, low: real, high: real)
    requires n > 0.0 && low * n <= x <= high * n
    ensures low <= x / n <= high
  {
    var q := x / n;
    assert q * n == x;
    if q < low {
      ScaleStrictly(q, low, n);
    }
    if q > high {
      ScaleStrictly(high, q, n);
    }
  }

  lemma ScaleStrictly(a: real, b: real, n: real)
    requires a < b && n > 0.0
    ensures a * n < b * n
  {
  }

  // The mean lies between the first and the last label.
  lemma MeanWithin(c: Cluster)
    requires Ordered(c)
    ensures Time(c[0]) <= Mean(c) <= Time(c[|c| - 1])
  {
    forall i | 0 <= i < |c|
      ensures Time(c[0]) <= Time(c[i]) <= Time(c[|c| - 1])
    {
      assert i == 0 || Earlier(c[0], c[i]);
      assert i == |c| - 1 || Earlier(c[i], c[|c| - 1]);
    }
    SumBounds(c, Time(c[0]), Time(c[|c| - 1]));
    DivideBounds(Sum(c), |c| as real, Time(c[0]), Time(c[|c| - 1]));
  }

  // ----- clusters are contiguous runs, far apart -----

  function Flatten(clusters: seq<Cluster>): seq<Label> {
    if clusters == [] then [] else Flatten(clusters[..|clusters| - 1]) + clusters[|clusters| - 1]
  }

  // Every label but the first joined within the tolerance of the mean before.
  ghost predicate Joined(c: Cluster, tolerance: real) {
    forall m :: 1 <= m < |c| ==> Abs(Time(c[m]) - Mean(c[..m])) <= tolerance
  }

  // The clusters, in order, are the labels cut into runs; each run began only
  // when its first label was beyond the mean of the run before.
  ghost predicate Runs(clusters: seq<Cluster>, labels: seq<Label>, tolerance: real) {
    && Flatten(clusters) == labels
    && (forall k :: 0 <= k < |clusters| ==> Ordered(clusters[k]) && Joined(clusters[k], tolerance))
    && (forall k, l :: 0 <= k < l < |clusters| ==> Time(clusters[l][0]) - Mean(clusters[k]) > tolerance)
  }

  lemma OrderedParts(a: seq<Label>, b: seq<Label>)
    requires Ordered(a + b)
    ensures Ordered(a) && Ordered(b)
    ensures forall i, j :: 0 <= i < |a| && 0 <= j < |b| ==> Time(a[i]) <= Time(b[j])
  {
    forall i, j | 0 <= i < j < |a|
      ensures Earlier(a[i], a[j])
    {
      assert Earlier((a + b)[i], (a + b)[j]);
    }
    forall i, j | 0 <= i < j < |b|
      ensures Earlier(b[i], b[j])
    {
      assert Earlier((a + b)[|a| + i], (a + b)[|a| + j]);
    }
    forall i, j | 0 <= i < |a| && 0 <= j < |b|
      ensures Time(a[i]) <= Time(b[j])
    {
      assert Earlier((a + b)[i], (a + b)[|a| + j]);
    }
  }

  // A label after all others can only join the newest cluster.
  lemma OnlyNewestFits(clusters: seq<Cluster>, labels: seq<Label>, l: Label, tolerance: real)
    requires Runs(clusters, labels, tolerance) && Ordered(labels + [l])
    ensures FirstFit(clusters, l, tolerance, 0) >= |clusters| - 1
  {
    if clusters != [] {
      var newest := clusters[|clusters| - 1];
      assert labels + [l] == Flatten(clusters[..|clusters| - 1]) + (newest + [l]);
      OrderedParts(Flatten(clusters[..|clusters| - 1]), newest + [l]);
      OrderedParts(newest, [l]);
      assert Time(newest[0]) <= Time([l][0]);
      forall k | 0 <= k < |clusters| - 1
        ensures !(Abs(Time(l) - Mean(clusters[k])) <= tolerance)
      {
        assert Time(newest[0]) - Mean(clusters[k]) > tolerance;
      }
    }
  }

  lemma GrowNewest(clusters: seq<Cluster>, labels: seq<Label>, l: Label, tolerance: real)
    requires clusters != [] && Runs(clusters, labels, tolerance) && Ordered(labels + [l])
    requires Abs(Time(l) - Mean(clusters[|clusters| - 1])) <= tolerance
    ensures Runs(clusters[|clusters| - 1 := clusters[|clusters| - 1] + [l]], labels + [l], tolerance)
  {
    hide Mean;
    var n := |clusters| - 1;
    var front := clusters[..n];
    var grown: Cluster := clusters[n] + [l];
    var placed := clusters[n := grown];
    assert placed[..n] == front && placed[n] == grown;
    assert labels + [l] == Flatten(front) + grown;
    OrderedParts(Flatten(front), grown);
    JoinOne(clusters[n], l, tolerance);
    hide Sorting.Ordered, Joined;
    assert Flatten(placed) == labels + [l];
    forall k, m | 0 <= k < m < |placed|
      ensures Time(placed[m][0]) - Mean(placed[k]) > tolerance
    {
      assert placed[m][0] == clusters[m][0];
    }
  }

  lemma JoinOne(c: Cluster, l: Label, tolerance: real)
    requires Joined(c, tolerance) && Abs(Time(l) - Mean(c)) <= tolerance
    ensures Joined(c + [l], tolerance)
  {
    hide Mean;
    var grown: Cluster := c + [l];
    forall m | 1 <= m < |grown|
      ensures Abs(Time(grown[m]) - Mean(grown[..m])) <= tolerance
    {
      assert grown[..m] == c[..m];
      if m == |c| {
        assert c[..m] == c;
      }
    }
  }

  lemma StartNewest(clusters: seq<Cluster>, labels: seq<Label>, l: Label, tolerance: real)
    requires Runs(clusters, labels, tolerance) && Ordered(labels + [l])
    requires FirstFit(clusters, l, tolerance, 0) == |clusters|
    ensures Runs(clusters + [[l]], labels + [l], tolerance)
  {
    hide Mean, FirstFit;
    NewestBeyondAll(clusters, labels, l, tolerance);
    hide Sorting.Ordered;
    var placed: seq<Cluster> := clusters + [[l]];
    assert placed[..|clusters|] == clusters;
    assert Flatten(placed) == labels + [l];
  }

  lemma PlaceExtendsRuns(clusters: seq<Cluster>, labels: seq<Label>, l: Label, tolerance: real)
    requires Runs(clusters, labels, tolerance) && Ordered(labels + [l])
    ensures Runs(Place(clusters, l, tolerance), labels + [l], tolerance)
  {
    hide Mean, Runs, Sorting.Ordered;
    OnlyNewestFits(clusters, labels, l, tolerance);
    if FirstFit(clusters, l, tolerance, 0) < |clusters| {
      GrowNewest(clusters, labels, l, tolerance);
    } else {
      StartNewest(clusters, labels, l, tolerance);
    }
  }

  lemma NewestBeyondAll(clusters: seq<Cluster>, labels: seq<Label>, l: Label, tolerance: real)
    requires Runs(clusters, labels, tolerance) && Ordered(labels + [l])
    requires FirstFit(clusters, l, tolerance, 0) == |clusters|
    ensures Ordered([l])
    ensures forall k :: 0 <= k < |clusters| ==> Time(l) - Mean(clusters[k]) > tolerance
  {
    OrderedParts(labels, [l]);
    if clusters != [] {
      var newest := clusters[|clusters| - 1];
      assert labels + [l] == Flatten(clusters[..|clusters| - 1]) + (newest + [l]);
      OrderedParts(Flatten(clusters[..|clusters| - 1]), newest + [l]);
      OrderedParts(newest, [l]);
      MeanWithin(newest);
      assert Time(newest[|newest| - 1]) <= Time([l][0]);
      forall k | 0 <= k < |clusters|
        ensures Time(l) - Mean(clusters[k]) > tolerance
      {
        if k < |clusters| - 1 {
          assert Time(newest[0]) - Mean(clusters[k]) > tolerance;
          assert Time(newest[0]) <= Time([l][0]);
        }
      }
    }
  }

  lemma {:induction false} ClustersAreRuns(labels: seq<Label>, tolerance: real)
    requires Ordered(labels)
    ensures Runs(Clusters(labels, tolerance), labels, tolerance)
  {
    hide Place, Runs;
    if labels == [] {
      NoRuns(tolerance);
    } else {
      var n := |labels| - 1;
      assert labels == labels[..n] + [labels[n]];
      OrderedParts(labels[..n], [labels[n]]);
      ClustersAreRuns(labels[..n], tolerance);
      PlaceExtendsRuns(Clusters(labels[..n], tolerance), labels[..n], labels[n], tolerance);
    }
  }

  lemma NoRuns(tolerance: real)
    ensures Runs([], [], tolerance)
  {
  }

  // On time-sorted labels first fit only ever grows the newest cluster, so
  // clusters are contiguous runs whose means are more than the tolerance apart.
  lemma {:induction false} ClustersAreFarApart(labels: seq<Label>, minConfidence: real, tolerance: real, k: nat, l: nat)
    requires k < l < |Clusters(Sorting.Sort(Earlier, Candidates(labels, minConfidence)), tolerance)|
    ensures var sorted := Sorting.Sort(Earlier, Candidates(labels, minConfidence));
      var clusters := Clusters(sorted, tolerance);
      && Flatten(clusters) == sorted
      && Mean(clusters[l]) - Mean(clusters[k]) > tolerance
  {
    var sorted := Sorting.Sort(Earlier, Candidates(labels, minConfidence));
    Sorting.SortOrders(Earlier, Candidates(labels, minConfidence));
    hide Mean, Clusters, Sorting.Sort;
    ClustersAreRuns(sorted, tolerance);
    MeanWithin(Clusters(sorted, tolerance)[l]);
  }

  // ----- how far one cluster can reach -----

  function Harmonic(n: nat): real {
    if n == 0 then 0.0 else Harmonic(n - 1) + 1.0 / n as real
  }

  // Adding a label at most tolerance above the mean of m labels raises the mean
  // by at most tolerance / (m + 1).
  lemma MeanStep(sum: real, x: real, m: real, tolerance: real)
    requires m >= 1.0 && x <= sum / m + tolerance
    ensures (sum + x) / (m + 1.0) <= sum / m + tolerance / (m + 1.0)
  {
    var mean := sum / m;
    var step := tolerance / (m + 1.0);
    assert mean * m == sum && step * (m + 1.0) == tolerance;
    assert (mean + step) * (m + 1.0) == sum + mean + tolerance;
    DivideBounds(sum + x, m + 1.0, (sum + x) / (m + 1.0), mean + step);
  }

  lemma MeanMore(c: Cluster, tolerance: real, m: nat)
    requires Joined(c, tolerance) && 1 < m <= |c|
    ensures Mean(c[..m]) <= Mean(c[..m - 1]) + tolerance / m as real
  {
    var before: Cluster := c[..m - 1];
    var x := Time(c[m - 1]);
    assert c[..m][..m - 1] == before;
    assert Abs(x - Mean(before)) <= tolerance;
    MeanStep(Sum(before), x, (m - 1) as real, tolerance);
  }

  lemma MeanOfFirst(c: Cluster, tolerance: real)
    ensures Mean(c[..1]) == Time(c[0]) && tolerance * (Harmonic(1) - 1.0) == 0.0
  {
    assert c[..1] == [c[0]] && c[..1][..0] == [];
    assert Sum(c[..1]) == Sum([]) + Time(c[0]);
    assert Harmonic(1) == Harmonic(0) + 1.0;
  }

  lemma {:induction false} MeanDrift(c: Cluster, tolerance: real, m: nat)
    requires Joined(c, tolerance) && 1 <= m <= |c|
    ensures Mean(c[..m]) <= Time(c[0]) + tolerance * (Harmonic(m) - 1.0)
  {
    hide Mean, Harmonic, Joined;
    if m == 1 {
      MeanOfFirst(c, tolerance);
    } else {
      MeanDrift(c, tolerance, m - 1);
      MeanMore(c, tolerance, m);
      DriftStep(tolerance, m);
    }
  }

  lemma DriftStep(tolerance: real, m: nat)
    requires m >= 1
    ensures tolerance * (Harmonic(m) - 1.0) == tolerance * (Harmonic(m - 1) - 1.0) + tolerance / m as real
  {
    assert tolerance * (1.0 / m as real) == tolerance / m as real;
  }

  lemma OneMoreTolerance(tolerance: real, h: real)
    ensures tolerance * h == tolerance * (h - 1.0) + tolerance
  {
  }

  // A cluster of n labels spans at most the tolerance times the harmonic number
  // of n - 1: drift is unbounded but only logarithmic.
  ghost predicate SpansAtMost(c: Cluster, tolerance: real) {
    Time(c[|c| - 1]) - Time(c[0]) <= tolerance * Harmonic(|c| - 1)
  }

  lemma SpanBound(c: Cluster, tolerance: real)
    requires Joined(c, tolerance)
    ensures SpansAtMost(c, tolerance)
  {
    hide Mean, Harmonic;
    if |c| > 1 {
      MeanDrift(c, tolerance, |c| - 1);
      OneMoreTolerance(tolerance, Harmonic(|c| - 1));
      assert Abs(Time(c[|c| - 1]) - Mean(c[..|c| - 1])) <= tolerance;
    } else {
      assert Harmonic(0) == 0.0 by { HarmonicZero(); }
    }
  }

  lemma HarmonicZero()
    ensures Harmonic(0) == 0.0
  {
  }

  lemma {:induction false} ClusterSpans(labels: seq<Label>, minConfidence: real, tolerance: real, k: nat)
    requires k < |Clusters(Sorting.Sort(Earlier, Candidates(labels, minConfidence)), tolerance)|
    ensures var c := Clusters(Sorting.Sort(Earlier, Candidates(labels, minConfidence)), tolerance)[k];
      Ordered(c) && SpansAtMost(c, tolerance)
  {
    var sorted := Sorting.Sort(Earlier, Candidates(labels, minConfidence));
    Sorting.SortOrders(Earlier, Candidates(labels, minConfidence));
    hide Mean, Clusters, Sorting.Sort, Joined, SpansAtMost;
    ClustersAreRuns(sorted, tolerance);
    SpanBound(Clusters(sorted, tolerance)[k], tolerance);
  }

  // ----- the bound is attained -----

  function DriftLabel(k: nat, tolerance: real): Label {
    Label("teacher", true, Some(tolerance * Harmonic(k)), Some(Box(0.0, 0.0, 1.0, 1.0)), 1.0)
  }

  function Drift(n: nat, tolerance: real): seq<Label> {
    seq(n, k requires 0 <= k < n => DriftLabel(k, tolerance))
  }

  lemma DriftSumStep(n: nat, tolerance: real)
    requires n >= 1
    ensures tolerance * (n as real * (Harmonic(n) - 1.0))
            == tolerance * ((n - 1) as real * (Harmonic(n - 1) - 1.0)) + tolerance * Harmonic(n - 1)
  {
    var h := Harmonic(n - 1);
    var r := n as real;
    assert r * (1.0 / r) == 1.0;
    assert r * (Harmonic(n) - 1.0) == (r - 1.0) * (h - 1.0) + h;
  }

  lemma {:induction false} DriftSum(n: nat, tolerance: real)
    ensures Sum(Drift(n, tolerance)) == tolerance * (n as real * (Harmonic(n) - 1.0))
  {
    hide Harmonic;
    if n > 0 {
      DriftSum(n - 1, tolerance);
      DriftSumStep(n, tolerance);
      assert Drift(n, tolerance)[..n - 1] == Drift(n - 1, tolerance);
    }
  }

  lemma DriftMean(n: nat, tolerance: real)
    requires n >= 1
    ensures Drift(n, tolerance) != [] && Mean(Drift(n, tolerance)) == tolerance * (Harmonic(n) - 1.0)
  {
    hide Harmonic, Sum, Drift;
    DriftSum(n, tolerance);
    DriftLength(n, tolerance);
    Quotient(tolerance, n as real, Harmonic(n) - 1.0);
  }

  lemma DriftLength(n: nat, tolerance: real)
    ensures |Drift(n, tolerance)| == n
  {
  }

  lemma Quotient(a: real, n: real, b: real)
    requires n > 0.0
    ensures (a * (n * b)) / n == a * b
  {
    assert a * (n * b) == (a * b) * n;
  }

  lemma DriftJoins(n: nat, tolerance: real)
    requires n >= 1 && tolerance >= 0.0
    ensures Abs(Time(DriftLabel(n, tolerance)) - Mean(Drift(n, tolerance))) <= tolerance
  {
    hide Harmonic, Mean;
    DriftMean(n, tolerance);
    OneMoreTolerance(tolerance, Harmonic(n));
  }

  lemma {:induction false} DriftClusters(n: nat, tolerance: real)
    requires n >= 1 && tolerance >= 0.0
    ensures Clusters(Drift(n, tolerance), tolerance) == [Drift(n, tolerance)]
  {
    hide Mean, Harmonic;
    var c := Drift(n, tolerance);
    assert c[..n - 1] == Drift(n - 1, tolerance);
    if n > 1 {
      DriftClusters(n - 1, tolerance);
      var before: Cluster := Drift(n - 1, tolerance);
      DriftJoins(n - 1, tolerance);
      assert c == before + [c[n - 1]];
      assert FirstFit([before], c[n - 1], tolerance, 0) == 0;
    } else {
      assert c == [c[0]] && c[..0] == [];
      assert Clusters([], tolerance) == [];
      assert Place([], c[0], tolerance) == [[c[0]]];
    }
  }

  // The labels at tolerance * H(0), tolerance * H(1), ... all join one cluster,
  // whose span is the bound of SpanBound.
  lemma {:induction false} DriftAttainsBound(n: nat, tolerance: real)
    requires n >= 1 && tolerance >= 0.0
    ensures Clusters(Drift(n, tolerance), tolerance) == [Drift(n, tolerance)]
    ensures var c := Drift(n, tolerance); Time(c[n - 1]) - Time(c[0]) == tolerance * Harmonic(n - 1)
  {
    hide Mean, Harmonic, Clusters;
    DriftClusters(n, tolerance);
    HarmonicZero();
    assert Time(Drift(n, tolerance)[0]) == tolerance * 0.0;
  }

  // ----- the agreed events -----

  lemma {:induction false} AgreedEvents(clusters: seq<Cluster>, minAgreement: int)
    ensures var r := Agreed(clusters, minAgreement);
      && |r.events| + r.unclear == |clusters|
      && (forall i :: 0 <= i < |r.events| ==>
            1 <= r.events[i].cluster <= |clusters|
            && r.events[i].ts == Mean(clusters[r.events[i].cluster - 1])
            && r.events[i].teachers == Teachers(clusters[r.events[i].cluster - 1])
            && |r.events[i].teachers| >= minAgreement)
      && (forall i, j :: 0 <= i < j < |r.events| ==> r.events[i].cluster < r.events[j].cluster)
  {
    hide Mean, Teachers;
    if clusters != [] {
      AgreedEvents(clusters[..|clusters| - 1], minAgreement);
    }
  }

  // Two consensus events are more than the tolerance apart, and each carries
  // the agreement of enough distinct teachers.
  lemma ConsensusEventsApart(labels: seq<Label>, minAgreement: int, minConfidence: real, tolerance: real, i: nat,
                             j: nat)
    requires i < j < |Consensus(labels, minAgreement, minConfidence, tolerance).events|
    ensures var events := Consensus(labels, minAgreement, minConfidence, tolerance).events;
      && events[j].ts - events[i].ts > tolerance
      && |events[i].teachers| >= minAgreement && |events[j].teachers| >= minAgreement
  {
    hide Clusters, Mean, Teachers, Agreed, Sorting.Sort;
    var clusters := Clusters(Sorting.Sort(Earlier, Candidates(labels, minConfidence)), tolerance);
    AgreedEvents(clusters, minAgreement);
    var events := Agreed(clusters, minAgreement).events;
    ClustersAreFarApart(labels, minConfidence, tolerance, events[i].cluster - 1, events[j].cluster - 1);
  }

  // ----- the whole outcome -----

  lemma {:induction false} CandidatesAre(labels: seq<Label>, minConfidence: real)
    ensures forall l :: multiset(Candidates(labels, minConfidence))[l]
                        == if l.countable && l.ts.Some? && l.box.Some? && l.confidence >= minConfidence
                           then multiset(labels)[l] else 0
  {
    if labels != [] {
      var front := labels[..|labels| - 1];
      assert labels == front + [labels[|labels| - 1]];
      CandidatesAre(front, minConfidence);
    }
  }

  // Event e is what a cluster becomes.
  ghost predicate EventOf(e: Event, clusters: seq<Cluster>, k: nat)
    requires k < |clusters|
  {
    && e.cluster == k + 1 && e.ts == Mean(clusters[k])
    && forall t :: t in e.teachers <==> exists l :: l in clusters[k] && l.teacherId == t
  }

  ghost predicate HasEvent(r: Outcome, clusters: seq<Cluster>, k: nat)
    requires k < |clusters|
  {
    exists i :: 0 <= i < |r.events| && EventOf(r.events[i], clusters, k)
  }

  lemma TeachersAre(c: Cluster)
    ensures forall t :: t in Teachers(c) <==> exists l :: l in c && l.teacherId == t
  {
  }

  lemma {:induction false} AgreedExactly(clusters: seq<Cluster>, minAgreement: int)
    ensures forall k: nat :: k < |clusters| ==>
      (HasEvent(Agreed(clusters, minAgreement), clusters, k) <==> |Teachers(clusters[k])| >= minAgreement)
  {
    hide Mean, Teachers;
    AgreedEvents(clusters, minAgreement);
    var r := Agreed(clusters, minAgreement);
    forall k: nat | k < |clusters|
      ensures HasEvent(r, clusters, k) <==> |Teachers(clusters[k])| >= minAgreement
    {
      TeachersAre(clusters[k]);
      if |Teachers(clusters[k])| >= minAgreement {
        AgreedHas(clusters, minAgreement, k);
      }
    }
  }

  lemma {:induction false} AgreedHas(clusters: seq<Cluster>, minAgreement: int, k: nat)
    requires k < |clusters| && |Teachers(clusters[k])| >= minAgreement
    ensures HasEvent(Agreed(clusters, minAgreement), clusters, k)
  {
    hide Mean, Teachers;
    var n := |clusters| - 1;
    var r := Agreed(clusters, minAgreement);
    if k < n {
      AgreedHas(clusters[..n], minAgreement, k);
      var before := Agreed(clusters[..n], minAgreement);
      var i :| 0 <= i < |before.events| && EventOf(before.events[i], clusters[..n], k);
      assert r.events[i] == before.events[i];
      assert EventOf(r.events[i], clusters, k);
    } else {
      TeachersAre(clusters[n]);
      assert EventOf(r.events[|r.events| - 1], clusters, k);
    }
  }

  // Exactly the countable labels with a time, a box and enough confidence are
  // clustered, each once, and exactly the clusters with enough distinct teachers
  // become events; the others are counted as unclear.
  lemma ConsensusIsExact(labels: seq<Label>, minAgreement: int, minConfidence: real, tolerance: real)
    ensures var clusters := Clusters(Sorting.Sort(Earlier, Candidates(labels, minConfidence)), tolerance);
      var r := Consensus(labels, minAgreement, minConfidence, tolerance);
      && Runs(clusters, Flatten(clusters), tolerance) && Ordered(Flatten(clusters))
      && (forall l :: multiset(Flatten(clusters))[l]
                      == if l.countable && l.ts.Some? && l.box.Some? && l.confidence >= minConfidence
                         then multiset(labels)[l] else 0)
      && (forall k: nat :: k < |clusters| ==>
            (HasEvent(r, clusters, k) <==> |Teachers(clusters[k])| >= minAgreement))
      && |r.events| + r.unclear == |clusters|
      && (forall i, j :: 0 <= i < j < |r.events| ==> r.events[i].cluster < r.events[j].cluster)
  {
    hide Mean, Clusters, Sorting.Sort, Joined, Candidates, HasEvent;
    var candidates := Candidates(labels, minConfidence);
    var sorted := Sorting.Sort(Earlier, candidates);
    Sorting.SortOrders(Earlier, candidates);
    Sorting.SortPermutes(Earlier, candidates);
    CandidatesAre(labels, minConfidence);
    ClustersAreRuns(sorted, tolerance);
    AgreedExactly(Clusters(sorted, tolerance), minAgreement);
    AgreedEvents(Clusters(sorted, tolerance), minAgreement);
  }
}
