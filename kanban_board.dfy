/** The alternative board component (apps/web/src/pages/KanbanBoard.tsx): a fixed
    four-column partition of the fetched issues, replaced wholesale after each fetch. */
module KanbanBoard {
  import opened Common
  import opened WebTypes

  datatype KanbanColumn = KanbanColumn(id: string, name: string, issues: seq<Issue>)

  /** The column ids; the third is spelled "in-progress", unlike the status it holds. */
  const KanbanColumnIds: seq<string> := ["backlog", "todo", "in-progress", "done"]

  /** The status each column collects, by position. */
  const ColumnStatuses: seq<string> := ["backlog", "todo", "in_progress", "done"]

  function HasStatus(status: string): Issue -> bool {
    (i: Issue) => i.status == status
  }

  /** The four columns before the first fetch: right ids, all empty. */
  function InitialColumns(): (r: seq<KanbanColumn>)
    ensures |r| == 4
    ensures forall k :: 0 <= k < 4 ==> r[k].id == KanbanColumnIds[k] && r[k].issues == []
  {
    [ KanbanColumn("backlog", "Backlog", []),
      KanbanColumn("todo", "To Do", []),
      KanbanColumn("in-progress", "In Progress", []),
      KanbanColumn("done", "Done", []) ]
  }

  /** The columns set after a successful fetch. */
  function PartitionColumns(fetched: seq<Issue>): (r: seq<KanbanColumn>)
    ensures |r| == 4
    ensures forall k :: 0 <= k < 4 ==> r[k].id == KanbanColumnIds[k]
  {
    [ KanbanColumn("backlog", "Backlog", Filter(fetched, HasStatus("backlog"))),
      KanbanColumn("todo", "To Do", Filter(fetched, HasStatus("todo"))),
      KanbanColumn("in-progress", "In Progress", Filter(fetched, HasStatus("in_progress"))),
      KanbanColumn("done", "Done", Filter(fetched, HasStatus("done"))) ]
  }

  /** fetchIssues: `response` is the fetched list, None when the request fails. */
  function AfterFetch(columns: seq<KanbanColumn>, response: Option<seq<Issue>>): seq<KanbanColumn> {
    if response.Some? then PartitionColumns(response.value) else columns
  }

  /** Column k holds, in fetched order, exactly the fetched issues whose status is ColumnStatuses[k];
      in particular the "in-progress" column holds the "in_progress" issues. */
  lemma ColumnContents(fetched: seq<Issue>, k: nat)
    requires k < 4
    ensures IsSubseq(PartitionColumns(fetched)[k].issues, fetched)
    ensures forall i :: i in PartitionColumns(fetched)[k].issues <==> i in fetched && i.status == ColumnStatuses[k]
  {
    FilterIsSubseq(fetched, HasStatus(ColumnStatuses[k]));
  }

  /** No issue is in two columns. */
  lemma ColumnsDisjoint(fetched: seq<Issue>, k1: nat, k2: nat, i: Issue)
    requires k1 < 4 && k2 < 4 && k1 != k2
    ensures !(i in PartitionColumns(fetched)[k1].issues && i in PartitionColumns(fetched)[k2].issues)
  {
    ColumnContents(fetched, k1);
    ColumnContents(fetched, k2);
  }

  /** An issue whose status is none of the four is on no column. */
  lemma OtherStatusDropped(fetched: seq<Issue>, i: Issue, k: nat)
    requires k < 4 && i.status !in ColumnStatuses
    ensures i !in PartitionColumns(fetched)[k].issues
  {
    ColumnContents(fetched, k);
  }

  function TotalSize(columns: seq<KanbanColumn>): nat {
    if columns == [] then 0 else |columns[0].issues| + TotalSize(columns[1..])
  }

  lemma {:induction false} PartitionCount(fetched: seq<Issue>)
    ensures |Filter(fetched, HasStatus("backlog"))| + |Filter(fetched, HasStatus("todo"))|
          + |Filter(fetched, HasStatus("in_progress"))| + |Filter(fetched, HasStatus("done"))| <= |fetched|
  {
    if fetched != [] {
      PartitionCount(fetched[1..]);
    }
  }

  /** The columns together hold at most the fetched issues. */
  lemma TotalAtMostFetched(fetched: seq<Issue>)
    ensures TotalSize(PartitionColumns(fetched)) <= |fetched|
  {
    var r := PartitionColumns(fetched);
    assert r[3..][1..] == [];
    assert TotalSize(r[3..]) == |r[3].issues|;
    assert r[2..][1..] == r[3..];
    assert TotalSize(r[2..]) == |r[2].issues| + |r[3].issues|;
    assert r[1..][1..] == r[2..];
    assert TotalSize(r[1..]) == |r[1].issues| + |r[2].issues| + |r[3].issues|;
    PartitionCount(fetched);
  }

  /** A failed fetch keeps the previous columns; a successful one replaces all four. */
  lemma FetchOutcome(columns: seq<KanbanColumn>, response: Option<seq<Issue>>)
    ensures response.None? ==> AfterFetch(columns, response) == columns
    ensures response.Some? ==>
      && |AfterFetch(columns, response)| == 4
      && forall k :: 0 <= k < 4 ==> AfterFetch(columns, response)[k].issues == Filter(response.value, HasStatus(ColumnStatuses[k]))
  {
  }
}
