/** The review-phase stages and the router consulted after the sprint review. */
module Review {
  import opened Wrappers
  import opened State

  /** `tester_node` returns `{}`: merging it changes nothing. */
  function TesterNode(s: ScrumState): (d: Delta)
    ensures forall base :: Merge(base, d) == base
  {
    forall base ensures Merge(base, NoChange) == base { MergeNoChange(base); }
    NoChange
  }

  /** `reviewer_node` returns `{}`: merging it changes nothing. */
  function ReviewerNode(s: ScrumState): (d: Delta)
    ensures forall base :: Merge(base, d) == base
  {
    forall base ensures Merge(base, NoChange) == base { MergeNoChange(base); }
    NoChange
  }

  /** `sprint_review_node` returns `{"phase": "review"}` whatever the state. */
  function SprintReviewNode(s: ScrumState): (d: Delta)
    ensures forall base :: Merge(base, d) == base.(phase := Some(Phase.Review))
  {
    forall base ensures Merge(base, NoChange.(phase := Some(Phase.Review))) == base.(phase := Some(Phase.Review)) {
      MergeNoChange(base);
    }
    NoChange.(phase := Some(Phase.Review))
  }

  /** `release_node` returns `{"phase": "complete"}` whatever the state. */
  function ReleaseNode(s: ScrumState): (d: Delta)
    ensures forall base :: Merge(base, d) == base.(phase := Some(Complete))
  {
    forall base ensures Merge(base, NoChange.(phase := Some(Complete))) == base.(phase := Some(Complete)) {
      MergeNoChange(base);
    }
    NoChange.(phase := Some(Complete))
  }

  /** The labels `router` returns: "release", "planning" or END. */
  datatype RouteLabel = ReleaseLabel | PlanningLabel | EndLabel

  /** `router`: "release" exactly for phase "release", "planning" exactly for
      phase "planning", END for every other phase and for a missing phase. */
  function Router(s: ScrumState): (r: RouteLabel)
    ensures r == ReleaseLabel <==> s.phase == Some(Release)
    ensures r == PlanningLabel <==> s.phase == Some(Planning)
    ensures r == EndLabel <==> s.phase.None? || s.phase.value !in {Release, Planning}
  {
    var phase := s.phase;
    if phase == Some(Release) then ReleaseLabel
    else if phase == Some(Planning) then PlanningLabel
    else EndLabel
  }

  /** After the sprint review has been merged the router always says END, so
      the "release" and "planning" labels are never produced by the graph as
      written; after the release stage it says END as well. */
  lemma RouterAfterReview(s: ScrumState)
    ensures Router(Merge(s, SprintReviewNode(s))) == EndLabel
    ensures Router(Merge(s, ReleaseNode(s))) == EndLabel
  {
  }
}
