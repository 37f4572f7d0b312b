/** The sprints page (apps/web/src/pages/Sprints.tsx): its three sections, the actions each
    sprint card offers, and the progress bar width. */
module SprintsPage {
  import opened Common
  import opened WebTypes

  function HasSprintStatus(status: string): Sprint -> bool {
    (s: Sprint) => s.status == status
  }

  /** activeSprint: the first sprint whose status is "active". */
  function ActiveSprint(sprints: seq<Sprint>): (r: Option<Sprint>)
    ensures r.None? <==> forall k :: 0 <= k < |sprints| ==> sprints[k].status != "active"
    ensures r.Some? ==> exists k :: 0 <= k < |sprints| && sprints[k] == r.value && sprints[k].status == "active"
                                   && forall j :: 0 <= j < k ==> sprints[j].status != "active"
  {
    match FindFirst(sprints, HasSprintStatus("active"))
    case None => None
    case Some(k) => Some(sprints[k])
  }

  function PlannedSprints(sprints: seq<Sprint>): seq<Sprint> {
    Filter(sprints, HasSprintStatus("planning"))
  }

  function CompletedSprints(sprints: seq<Sprint>): seq<Sprint> {
    Filter(sprints, HasSprintStatus("completed"))
  }

  /** The planned and completed sections hold exactly the sprints of their status, in order. */
  lemma SectionsSpec(sprints: seq<Sprint>)
    ensures IsSubseq(PlannedSprints(sprints), sprints) && IsSubseq(CompletedSprints(sprints), sprints)
    ensures forall s :: s in PlannedSprints(sprints) <==> s in sprints && s.status == "planning"
    ensures forall s :: s in CompletedSprints(sprints) <==> s in sprints && s.status == "completed"
  {
    FilterIsSubseq(sprints, HasSprintStatus("planning"));
    FilterIsSubseq(sprints, HasSprintStatus("completed"));
  }

  /** The cards on the page: the active sprint, then the planned, then the completed ones. */
  function ShownSprints(sprints: seq<Sprint>): seq<Sprint> {
    (match ActiveSprint(sprints) case None => [] case Some(a) => [a])
      + PlannedSprints(sprints) + CompletedSprints(sprints)
  }

  /** A sprint is shown iff it is the active sprint or is planned or completed; so a second
      active sprint different from the first, or a sprint of any other status, appears nowhere. */
  lemma ShownSprintsSpec(sprints: seq<Sprint>, s: Sprint)
    ensures s in ShownSprints(sprints) <==>
      ActiveSprint(sprints) == Some(s) || (s in sprints && (s.status == "planning" || s.status == "completed"))
  {
    var head: seq<Sprint> := match ActiveSprint(sprints) case None => [] case Some(a) => [a];
    assert ShownSprints(sprints) == head + PlannedSprints(sprints) + CompletedSprints(sprints);
    assert s in head <==> ActiveSprint(sprints) == Some(s);
  }

  datatype SprintAction = Start | Complete | Delete

  /** The buttons a card offers: Start only for "planning", Complete only for "active", Delete always. */
  function OfferedActions(s: Sprint): seq<SprintAction> {
    (if s.status == "planning" then [Start] else [])
    + (if s.status == "active" then [Complete] else [])
    + [Delete]
  }

  /** The status each PATCH sends: Start asks for "active", Complete for "completed". */
  function RequestedStatus(a: SprintAction): Option<string> {
    match a
    case Start => Some("active")
    case Complete => Some("completed")
    case Delete => None
  }

  function Rank(status: string): int {
    if status == "planning" then 0
    else if status == "active" then 1
    else if status == "completed" then 2
    else -1
  }

  lemma OfferedActionsSpec(s: Sprint)
    ensures Start in OfferedActions(s) <==> s.status == "planning"
    ensures Complete in OfferedActions(s) <==> s.status == "active"
    ensures Delete in OfferedActions(s)
  {
  }

  /** From the page a sprint moves only forward: planning to active, active to completed. */
  lemma OnlyForwardTransitions(s: Sprint, a: SprintAction)
    requires a in OfferedActions(s)
    ensures RequestedStatus(a).Some? ==> Rank(s.status) >= 0 && Rank(RequestedStatus(a).value) == Rank(s.status) + 1
  {
  }

  /** The progress bar width in percent; a sprint without points shows 0 rather than dividing by 0. */
  function ProgressPercent(completedPoints: int, totalPoints: int): real {
    if totalPoints > 0 then (completedPoints as real / totalPoints as real) * 100.0 else 0.0
  }

  lemma ProgressBounds(completedPoints: int, totalPoints: int)
    ensures totalPoints <= 0 ==> ProgressPercent(completedPoints, totalPoints) == 0.0
    ensures 0 <= completedPoints <= totalPoints && totalPoints > 0 ==>
      0.0 <= ProgressPercent(completedPoints, totalPoints) <= 100.0
  {
    if 0 <= completedPoints <= totalPoints && totalPoints > 0 {
      var q := completedPoints as real / totalPoints as real;
      assert q * totalPoints as real == completedPoints as real;
      assert q <= 1.0;
    }
  }
}
