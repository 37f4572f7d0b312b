/** The filter bar (apps/web/src/components/IssueFilter.tsx): its option lists and the
    hasActiveFilters flag that shows the Reset control. */
module IssueFilter {
  import opened WebTypes
  import opened BoardProjection

  const StatusOptions: seq<string> := ["all", "backlog", "todo", "in_progress", "review", "done"]
  const PriorityOptions: seq<string> := ["all", "critical", "high", "medium", "low"]
  const TypeOptions: seq<string> := ["all", "epic", "story", "task", "bug", "subtask"]

  /** Some filter differs from its neutral value; the Reset control is rendered exactly then. */
  predicate HasActiveFilters(f: Filters) {
    f.search != "" || f.status != "all" || f.priority != "all" || f.assigneeId != "all" || f.issueType != "all"
  }

  lemma InactiveIffNeutral(f: Filters)
    ensures !HasActiveFilters(f) <==> f == NeutralFilters
  {
  }

  /** With no active filter the board keeps every issue. */
  lemma InactiveKeepsAll(issues: seq<Issue>, f: Filters)
    requires !HasActiveFilters(f)
    ensures FilteredIssues(issues, f) == issues
  {
    InactiveIffNeutral(f);
    NeutralFiltersKeepAll(issues);
  }

  predicate Distinct(s: seq<string>) {
    forall j, k :: 0 <= j < k < |s| ==> s[j] != s[k]
  }

  /** Each list is "all" followed by distinct values; the status list has the four board columns
      plus "review", which selects issues that are on no board column. */
  lemma OptionLists()
    ensures StatusOptions[0] == "all" && |StatusOptions| == 6 && Distinct(StatusOptions)
    ensures PriorityOptions[0] == "all" && |PriorityOptions| == 5 && Distinct(PriorityOptions)
    ensures TypeOptions[0] == "all" && |TypeOptions| == 6 && Distinct(TypeOptions)
    ensures forall s :: s in StatusOptions[1..] <==> s in ColumnIds || s == "review"
    ensures "review" !in ColumnIds
  {
  }

  /** The assignee select: "all", then "" (unassigned), then the assignee ids in order. */
  function AssigneeOptions(assignees: seq<User>): (r: seq<string>)
    ensures |r| == |assignees| + 2 && r[0] == "all" && r[1] == ""
    ensures forall k :: 0 <= k < |assignees| ==> r[k + 2] == assignees[k].id
  {
    ["all", ""] + seq(|assignees|, k requires 0 <= k < |assignees| => assignees[k].id)
  }
}
