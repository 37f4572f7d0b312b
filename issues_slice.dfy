/** The issues store slice (apps/web/src/store/slices/issuesSlice.ts): the list, the current
    issue, and the fetch lifecycle flags, updated in place by its reducers. */
module IssuesSlice {
  import opened Common
  import opened WebTypes

  function HasId(id: string): Issue -> bool {
    (i: Issue) => i.id == id
  }

  /** Array.prototype.findIndex over the ids: the first position holding `id`, or -1. */
  method FindIssueIndex(issues: seq<Issue>, id: string) returns (index: int)
    ensures -1 <= index < |issues|
    ensures index == -1 <==> forall j :: 0 <= j < |issues| ==> issues[j].id != id
    ensures index >= 0 ==> issues[index].id == id && forall j :: 0 <= j < index ==> issues[j].id != id
    ensures index >= 0 <==> FindFirst(issues, HasId(id)) == Some(index)
  {
    var k := 0;
    while k < |issues|
      invariant 0 <= k <= |issues|
      invariant forall j :: 0 <= j < k ==> issues[j].id != id
    {
      if issues[k].id == id {
        return k;
      }
      k := k + 1;
    }
    return -1;
  }

  /** The list with the issue at `index` replaced, as `state.issues[index] = …` does. */
  function ReplaceAt(issues: seq<Issue>, index: int, issue: Issue): (r: seq<Issue>)
    requires 0 <= index < |issues|
    ensures |r| == |issues| && r[index] == issue
    ensures forall j :: 0 <= j < |issues| && j != index ==> r[j] == issues[j]
  {
    issues[index := issue]
  }

  class IssuesState {
    var issues: seq<Issue>
    var currentIssue: Option<Issue>
    var isLoading: bool
    var error: Option<string>

    constructor()
      ensures issues == [] && currentIssue == None && !isLoading && error == None
    {
      issues := [];
      currentIssue := None;
      isLoading := false;
      error := None;
    }

    method SetCurrentIssue(issue: Option<Issue>)
      modifies this
      ensures currentIssue == issue
      ensures issues == old(issues) && isLoading == old(isLoading) && error == old(error)
    {
      currentIssue := issue;
    }

    /** updateIssueStatus: the first issue with that id gets the status; an absent id is a no-op. */
    method UpdateIssueStatus(issueId: string, status: string)
      modifies this
      ensures |issues| == |old(issues)|
      ensures match FindFirst(old(issues), HasId(issueId))
        case None => issues == old(issues)
        case Some(k) => issues == ReplaceAt(old(issues), k, old(issues)[k].(status := status))
      ensures currentIssue == old(currentIssue) && isLoading == old(isLoading) && error == old(error)
    {
      var index := FindIssueIndex(issues, issueId);
      if index != -1 {
        issues := ReplaceAt(issues, index, issues[index].(status := status));
      }
    }

    method FetchPending()
      modifies this
      ensures isLoading && error == None
      ensures issues == old(issues) && currentIssue == old(currentIssue)
    {
      isLoading := true;
      error := None;
    }

    method FetchFulfilled(payload: seq<Issue>)
      modifies this
      ensures !isLoading && issues == payload
      ensures currentIssue == old(currentIssue) && error == old(error)
    {
      isLoading := false;
      issues := payload;
    }

    method FetchRejected(message: Option<string>)
      modifies this
      ensures !isLoading && error == Some(OrDefault(message, "Failed to fetch issues"))
      ensures issues == old(issues) && currentIssue == old(currentIssue)
    {
      isLoading := false;
      error := Some(OrDefault(message, "Failed to fetch issues"));
    }

    /** createIssue.fulfilled appends the created issue. */
    method CreateFulfilled(issue: Issue)
      modifies this
      ensures issues == old(issues) + [issue] && |issues| == |old(issues)| + 1
      ensures currentIssue == old(currentIssue) && isLoading == old(isLoading) && error == old(error)
    {
      issues := issues + [issue];
    }

    /** updateIssue.fulfilled replaces the first issue with the payload's id; an absent id is a no-op. */
    method UpdateFulfilled(issue: Issue)
      modifies this
      ensures match FindFirst(old(issues), HasId(issue.id))
        case None => issues == old(issues)
        case Some(k) => issues == ReplaceAt(old(issues), k, issue)
      ensures currentIssue == old(currentIssue) && isLoading == old(isLoading) && error == old(error)
    {
      var index := FindIssueIndex(issues, issue.id);
      if index != -1 {
        issues := ReplaceAt(issues, index, issue);
      }
    }
  }
}
