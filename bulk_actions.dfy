/** The bulk action bar (apps/web/src/components/BulkActions.tsx): shown only with a
    non-empty selection, with a select-all/clear toggle and a pluralised count label. */
module BulkActions {
  import opened Common
  import opened WebTypes
  import opened BoardProjection

  const ClearedSelection: seq<string> := []

  datatype ToggleAction = SelectAllAction | ClearSelectionAction

  /** The bar renders nothing for an empty selection. */
  predicate Rendered(selectedCount: nat) {
    selectedCount != 0
  }

  predicate IsAllSelected(selectedCount: nat, totalCount: nat) {
    selectedCount == totalCount
  }

  /** The toggle button clears when everything is selected and selects all otherwise. */
  function Toggle(selectedCount: nat, totalCount: nat): (r: ToggleAction)
    ensures r == ClearSelectionAction <==> selectedCount == totalCount
  {
    if IsAllSelected(selectedCount, totalCount) then ClearSelectionAction else SelectAllAction
  }

  function SelectionLabel(n: nat): string {
    NatToString(n) + " issue" + (if n != 1 then "s" else "") + " selected"
  }

  /** The label is singular exactly when one issue is selected. */
  lemma LabelSingularIffOne(n: nat)
    ensures SelectionLabel(n) == NatToString(n) + " issue selected" <==> n == 1
  {
    var d := NatToString(n);
    if n != 1 {
      var plural := SelectionLabel(n);
      assert plural[|d| + 6] == 's';
      assert (d + " issue selected")[|d| + 6] == ' ';
    }
  }

  /** The bar disappears when the selection is cleared and appears once an id is toggled in. */
  lemma BarVisibility(selected: seq<string>, id: string)
    ensures !Rendered(|ClearedSelection|)
    ensures id !in selected ==> Rendered(|ToggleSelection(selected, id)|)
  {
    ToggleFlipsOnlyThatId(selected, id);
  }

  /** After select-all on the board the bar's toggle offers to clear, since the board passes
      the number of displayed issues as totalCount. */
  lemma SelectAllThenToggleClears(issues: seq<Issue>, f: Filters)
    ensures Toggle(|IssueIds(FilteredIssues(issues, f))|, |FilteredIssues(issues, f)|) == ClearSelectionAction
  {
  }
}
