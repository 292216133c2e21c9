// The two choices the counter makes among several candidates: which resident a
// box matches and which track lends its token.
module CountChoices {
  import opened Geometry
  import opened CountModel

  // i is the first of the nearest residents that match the box.
  ghost predicate NearestMatch(cfg: Config, residents: seq<Resident>, bbox: Box, i: nat) {
    && i < |residents| && MatchesResident(cfg, residents[i], bbox)
    && forall j: nat :: j < |residents| && MatchesResident(cfg, residents[j], bbox) ==>
         var (best, other) := (DistanceSq(Center(bbox), residents[i].center),
                               DistanceSq(Center(bbox), residents[j].center));
         best <= other && (j < i ==> best < other)
  }

  lemma {:induction false} MatchingResidentIsNearest(cfg: Config, residents: seq<Resident>, bbox: Box)
    ensures var found := MatchingResident(cfg, residents, bbox);
      if found.None? then forall j: nat :: j < |residents| ==> !MatchesResident(cfg, residents[j], bbox)
      else exists i: nat :: NearestMatch(cfg, residents, bbox, i) && residents[i] == found.value
  {
    hide MatchesResident, DistanceSq, Center;
    if residents != [] {
      var n := |residents| - 1;
      MatchingResidentIsNearest(cfg, residents[..n], bbox);
      var before := MatchingResident(cfg, residents[..n], bbox);
      var found := MatchingResident(cfg, residents, bbox);
      if before.None? && found.Some? {
        assert NearestMatch(cfg, residents, bbox, n);
      } else if before.Some? {
        var i: nat :| NearestMatch(cfg, residents[..n], bbox, i) && residents[..n][i] == before.value;
        assert NearestMatch(cfg, residents, bbox, n) || NearestMatch(cfg, residents, bbox, i);
      }
    }
  }

  // i is the first of the ids whose tracks can lend and are missing the shortest.
  ghost predicate LeastMissing(cfg: Config, m: Machine, ids: seq<int>, borrower: int, i: nat) {
    && i < |ids| && CanLend(cfg, m, ids[i], borrower)
    && forall j: nat :: j < |ids| && CanLend(cfg, m, ids[j], borrower) ==>
         && m.tracks[ids[i]].missing <= m.tracks[ids[j]].missing
         && (j < i ==> m.tracks[ids[i]].missing < m.tracks[ids[j]].missing)
  }

  lemma {:induction false} LenderIsLeastMissing(cfg: Config, m: Machine, ids: seq<int>, borrower: int)
    ensures var found := Lender(cfg, m, ids, borrower);
      if found.None? then forall j: nat :: j < |ids| ==> !CanLend(cfg, m, ids[j], borrower)
      else exists i: nat :: LeastMissing(cfg, m, ids, borrower, i) && ids[i] == found.value
  {
    hide Live, Age;
    if ids != [] {
      var n := |ids| - 1;
      LenderIsLeastMissing(cfg, m, ids[..n], borrower);
      var before := Lender(cfg, m, ids[..n], borrower);
      if before.None? {
        if CanLend(cfg, m, ids[n], borrower) {
          assert LeastMissing(cfg, m, ids, borrower, n);
        }
      } else {
        var i: nat :| LeastMissing(cfg, m, ids[..n], borrower, i) && ids[..n][i] == before.value;
        assert LeastMissing(cfg, m, ids, borrower, n) || LeastMissing(cfg, m, ids, borrower, i);
      }
    }
  }
}
