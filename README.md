# TicketTracker core, modelled in Dafny

TicketTracker is an issue tracker with two halves. The browser client is built with React and Redux. The API server is built with Express and Prisma. This project models the logic of both halves that can be stated precisely:

- **Board page (`Board`, `BoardProjection`).**
  - The five-part issue filter and the fixed status columns.
  - The deduplicated assignee list and the selection set.
  - The bulk handlers, the drag-end rule and the socket merge-by-id.
- **Smaller client views.**
  - The four-column Kanban partition (`KanbanBoard`), and the filter bar and bulk bar (`IssueFilter`, `BulkActions`).
  - The notification feed and its centre (`Layout`, `NotificationCenter`), and the comment thread (`CommentList`).
  - The projects page (`ProjectsPage`), the sprint sections (`SprintsPage`) and the time-log arithmetic (`TimeTracking`).
- **Redux slices.** The four slices are classes whose methods are the reducers (`IssuesSlice`, `AuthSlice`, `ProjectsSlice`, `UiSlice`).
- **Server routes.**
  - Issue, sprint and project requests, as methods on an abstract store `Store.Db`. The store holds one map per table and a log of the socket events emitted to rooms.
  - The authentication guard (`AuthMiddleware`) and the error-to-response mapping (`ErrorHandler`).
- **Form validators.** These are the zod schemas of the `use*Form` hooks, as predicates plus issue lists (`FormSchema` and one module per form).

Things the code gets from outside are parameters of the model:

- **Client handlers.** The outcome of each HTTP call is a parameter: the fetched list (or `None` on failure), whether a PATCH or DELETE succeeded, and the answer to `confirm()`.
- **Server handlers.** These take the requester's id and the id Prisma will generate. A request's reply is `Ok(status, value)`, `Fail(status, message)`, or `Threw(error)` for an error handed to the error handler.
- **The error handler.** Its response to a `Threw` error is stated by `Store.ThrownStatuses`.
- **Library checks.** `jwt.verify` and zod's e-mail check are functions passed in.
- **Times.** Notification times are integer milliseconds.

JavaScript semantics are written out explicitly:

- truthiness and the `||` default (`Common.OrDefault`);
- destructuring defaults, which apply only to `undefined` (`IssuesRoute.OrDefaultValue`);
- `String.prototype.trim`, and `parseInt(·, 10)` on a leading-digit prefix;
- `%`, which truncates toward zero (`TimeTracking.JsRem`);
- Prisma's "undefined means unchanged" rule for update data (`IssuesRoute.Field`).

Two behaviours of the code are easy to miss, and the model keeps both as written:

- **Issue keys.**
  - The code builds the key from the project's current issue count plus one (apps/api/src/routes/issues.ts:99). Nothing else makes keys unique, so a key can recur once an issue has been deleted. `IssuesRoute.KeyRecursAfterDeletion` exhibits a store where the next key equals a surviving issue's key.
  - No route in this core deletes a single issue, so the model states this and does not treat it as a defect.
- **Validation.** The express-validator chains in the issue, project and sprint routes never reject a request (none of them calls `validationResult`). Their `.trim()` sanitizers do rewrite the stored title, name, content and key, and the model stores the trimmed values.

## Model

| member | source | states |
|---|---|---|
| BoardProjection.FilteredIssues | apps/web/src/pages/Board.tsx:201-229 | the result is an order-preserving subsequence of the issues, and an issue is in it iff it passes all five checks |
| BoardProjection.NeutralFiltersKeepAll | apps/web/src/pages/Board.tsx:201-229 | with search '' and every other filter 'all', every issue is kept |
| BoardProjection.SearchWithoutDescription | apps/web/src/pages/Board.tsx:203-210 | an issue without a description matches a search only through a case-insensitive title match, or when the search is empty |
| BoardProjection.AssigneeFilterCases | apps/web/src/pages/Board.tsx:217-223 | assignee filter '' keeps exactly the unassigned issues; any other non-'all' value keeps exactly the issues assigned to that id |
| BoardProjection.Columns | apps/web/src/pages/Board.tsx:241-246 | exactly four columns, with ids backlog, todo, in_progress, done in that order; each holds the ids of the issues with that status |
| BoardProjection.IdsWithStatusMembers | apps/web/src/pages/Board.tsx:241-246 | an id is in a status's id list iff some issue with that id has that status |
| BoardProjection.ColumnMembers | apps/web/src/pages/Board.tsx:241-246 | an id is in column k iff some issue with that id has column k's status |
| BoardProjection.ColumnsDisjoint | apps/web/src/pages/Board.tsx:241-246 | for issues with distinct ids, no id is in two different columns |
| BoardProjection.OtherStatusOnNoColumn | apps/web/src/pages/Board.tsx:241-246 | an issue whose status is not a column id (e.g. 'review') is in no column |
| BoardProjection.FilteredColumnsShape | apps/web/src/pages/Board.tsx:248-253 | the filtered columns have the same four ids in the same order, and each is a subset of the unfiltered column |
| BoardProjection.UpsertKeepsDistinct | apps/web/src/pages/Board.tsx:231-239 | adding an assignee keeps user ids distinct and adds exactly that id to the id set |
| BoardProjection.CollectAssigneesSpec | apps/web/src/pages/Board.tsx:231-239 | the accumulated assignee list has distinct ids, namely the initial ones plus every assignee id of the issues |
| BoardProjection.AssigneesAreDistinctAssigneeIds | apps/web/src/pages/Board.tsx:231-239 | the assignee list has no duplicate ids, and its ids are exactly the assignee ids of the issues |
| BoardProjection.ToggleFlipsOnlyThatId | apps/web/src/pages/Board.tsx:263-267 | toggling flips the membership of that id and of no other |
| BoardProjection.ToggleTwiceRestores | apps/web/src/pages/Board.tsx:263-267 | toggling twice restores membership, and restores the exact list when the id was absent |
| BoardProjection.DragTargetMoves | apps/web/src/pages/Board.tsx:338-365 | a resolved target requires a drop target, is the first column whose id is the drop target or that holds it, and differs from the dragged issue's current column |
| BoardProjection.DragTargetIsDropColumn | apps/web/src/pages/Board.tsx:348 | a resolved target is the first of the four columns that is the drop target or holds it |
| BoardProjection.DragNoOps | apps/web/src/pages/Board.tsx:338-365 | no target without a drop target, when no column is or holds the drop target, when the first such column already holds the dragged card, or when the dragged issue is on no column |
| BoardProjection.NoMatchingColumnNoOp | apps/web/src/pages/Board.tsx:348-350 | a drop target that is no column and on no column resolves nothing |
| BoardProjection.SameColumnNoOp | apps/web/src/pages/Board.tsx:347-351 | with distinct issue ids, a drop onto the dragged card's own column resolves nothing |
| BoardProjection.OffBoardNoOp | apps/web/src/pages/Board.tsx:347-350 | an issue whose status is no column id cannot be moved |
| BoardProjection.SetStatusOnlyChangesThatIssue | apps/web/src/pages/Board.tsx:359 | rewriting a status keeps the length and every issue with another id, and gives issues with that id the new status |
| BoardProjection.MergeReplacesOnlySameId | apps/web/src/pages/Board.tsx:376-382 | the merge keeps length and order, replaces exactly the issues with the incoming id, and is the identity for an unknown id |
| Board.BulkBody | apps/web/src/pages/Board.tsx:277-332 | the status, type and priority handlers send nothing for an empty value; the assignee handler sends null for '' |
| Board.BulkRequests | apps/web/src/pages/Board.tsx:277-332 | one request per selected id, in selection order, all with the same body; none when the guard returns |
| Board.BoardPage.constructor | apps/web/src/pages/Board.tsx:145-154 | no issues, loading, no drag, empty selection, neutral filters |
| Board.BoardPage.FetchIssues | apps/web/src/pages/Board.tsx:189-199 | the list becomes the fetched one, or is kept on failure; loading ends; nothing else changes |
| Board.BoardPage.SetFilterSearch | apps/web/src/pages/Board.tsx:145-154 | only the search filter changes |
| Board.BoardPage.SetFilterStatus | apps/web/src/pages/Board.tsx:145-154 | only the status filter changes |
| Board.BoardPage.SetFilterPriority | apps/web/src/pages/Board.tsx:145-154 | only the priority filter changes |
| Board.BoardPage.SetFilterAssignee | apps/web/src/pages/Board.tsx:145-154 | only the assignee filter changes |
| Board.BoardPage.SetFilterType | apps/web/src/pages/Board.tsx:145-154 | only the type filter changes |
| Board.BoardPage.ResetFilters | apps/web/src/pages/Board.tsx:255-261 | the filters become neutral and every issue is on display again |
| Board.BoardPage.ToggleIssueSelection | apps/web/src/pages/Board.tsx:263-267 | the id's membership flips; other ids and all other state are unchanged |
| Board.BoardPage.SelectAll | apps/web/src/pages/Board.tsx:269-271 | the selection becomes the ids of the filtered issues, in display order |
| Board.BoardPage.ClearSelection | apps/web/src/pages/Board.tsx:273-275 | the selection becomes empty |
| Board.BoardPage.ApplyBulkChange | apps/web/src/pages/Board.tsx:277-332 | sends one PATCH per selected id; when every request succeeds, the selection is cleared and the list refetched; otherwise nothing changes |
| Board.BoardPage.DragStart | apps/web/src/pages/Board.tsx:334-336 | records the dragged id |
| Board.BoardPage.DragEnd | apps/web/src/pages/Board.tsx:338-365 | the drag always ends; a PATCH goes out only for a resolved target and then carries the id of the first column that is the drop target or holds it; nothing is sent when no column matches; the local status is rewritten only after the PATCH succeeds |
| Board.BoardPage.OnIssuesEvent | apps/web/src/pages/Board.tsx:376-382 | events for another project are ignored; one for this project merges by id and refetches |
| Board.DragEndOutcome | apps/web/src/pages/Board.tsx:338-365 | after a successful drag, only the dragged issue changes, and its status becomes the id of the first column that is the drop target or holds it, a column id other than its old status |
| KanbanBoard.InitialColumns | apps/web/src/pages/KanbanBoard.tsx:19-24 | four empty columns with ids backlog, todo, in-progress, done in that order |
| KanbanBoard.PartitionColumns | apps/web/src/pages/KanbanBoard.tsx:33-43 | four columns with the same ids in the same order |
| KanbanBoard.ColumnContents | apps/web/src/pages/KanbanBoard.tsx:33-43 | each column is an order-preserving subsequence of the fetched issues, holding exactly those with its status ('in-progress' holds status 'in_progress') |
| KanbanBoard.ColumnsDisjoint | apps/web/src/pages/KanbanBoard.tsx:33-43 | no issue is in two columns |
| KanbanBoard.OtherStatusDropped | apps/web/src/pages/KanbanBoard.tsx:33-36 | an issue with none of the four statuses is in no column |
| KanbanBoard.PartitionCount | apps/web/src/pages/KanbanBoard.tsx:33-36 | the four column sizes sum to at most the number fetched |
| KanbanBoard.TotalAtMostFetched | apps/web/src/pages/KanbanBoard.tsx:33-43 | the board's total size is at most the number of issues fetched |
| KanbanBoard.FetchOutcome | apps/web/src/pages/KanbanBoard.tsx:27-49 | a failed fetch keeps the columns; a successful one replaces them with the partition |
| IssueFilter.InactiveIffNeutral | apps/web/src/components/IssueFilter.tsx:37 | hasActiveFilters is false iff search is '' and every other filter is 'all' (the Reset control at line 118 shows exactly when it is true) |
| IssueFilter.InactiveKeepsAll | apps/web/src/components/IssueFilter.tsx:37 | with no active filter, the board filter keeps every issue |
| IssueFilter.OptionLists | apps/web/src/components/IssueFilter.tsx:33-35 | each list is 'all' followed by distinct values; the status options are the four column ids plus 'review' |
| IssueFilter.AssigneeOptions | apps/web/src/components/IssueFilter.tsx:93-99 | the options are 'all', then '', then each assignee id in order |
| BulkActions.Toggle | apps/web/src/components/BulkActions.tsx:35 | the toggle clears iff the selected count equals the total count, and selects all otherwise |
| BulkActions.LabelSingularIffOne | apps/web/src/components/BulkActions.tsx:42 | the label is singular exactly when one issue is selected |
| BulkActions.SelectAllThenToggleClears | apps/web/src/components/BulkActions.tsx:29 | right after select-all, the toggle offers to clear |
| BulkActions.BarVisibility | apps/web/src/components/BulkActions.tsx:27 | the bar is hidden once the selection is cleared, and shown after selecting a previously unselected id |
| Layout.MarkedRead | apps/web/src/components/Layout.tsx:46-50 | keeps length and order; only entries with that id become read |
| Layout.AllMarkedRead | apps/web/src/components/Layout.tsx:52-54 | every entry becomes read, and length and order are kept |
| Layout.AllMarkedReadIdempotent | apps/web/src/components/Layout.tsx:52-54 | marking all read twice is the same as once, and leaves no unread entry |
| Layout.WithoutRemovesExactlyThatId | apps/web/src/components/Layout.tsx:56-58 | removes exactly the entries with that id and keeps the rest in order |
| Layout.NotificationFeed.constructor | apps/web/src/components/Layout.tsx:25-44 | the feed starts with the two seed entries, exactly one of them unread |
| Layout.NotificationFeed.MarkAsRead | apps/web/src/components/Layout.tsx:46-50 | the feed becomes the marked-read list |
| Layout.NotificationFeed.MarkAllAsRead | apps/web/src/components/Layout.tsx:52-54 | every entry is read and the badge is hidden |
| Layout.NotificationFeed.Delete | apps/web/src/components/Layout.tsx:56-58 | the entries with that id are removed |
| Layout.NotificationFeed.Receive | apps/web/src/components/Layout.tsx:63-68 | a notification for the current user is prepended; any other leaves the feed unchanged |
| Layout.BadgeIffSomeUnread | apps/web/src/components/Layout.tsx:238 | the badge shows iff some entry is unread |
| NotificationCenter.UnreadCountZeroIffAllRead | apps/web/src/components/NotificationCenter.tsx:21 | the unread count is 0 iff every notification is read |
| NotificationCenter.Bucket | apps/web/src/components/NotificationCenter.tsx:23-32 | 'just now' iff under a minute (including future times); minutes in 1..59, hours in 1..23, days from 1 on, each the floor of the elapsed time |
| NotificationCenter.TimeAgoExamples | apps/web/src/components/NotificationCenter.tsx:23-32 | a negative difference renders 'just now', 90 minutes renders '1h ago', 48 hours renders '2d ago' |
| NotificationCenter.BucketValues | apps/web/src/components/NotificationCenter.tsx:26-30 | the hour and day values are the whole minutes divided by 60 and by 1440 |
| NotificationCenter.IconsDistinct | apps/web/src/components/NotificationCenter.tsx:34-49 | the five types have five different icons, none of them the bell; any other type gets the bell |
| NotificationCenter.FooterPlural | apps/web/src/components/NotificationCenter.tsx:123-125 | the footer shows iff some notification is unread, with a plural 's' iff more than one is |
| CommentList.SubmitBlockedIffBlank | apps/web/src/components/CommentList.tsx:23 | when idle, a submit is blocked iff the draft is all whitespace |
| CommentList.Toggled | apps/web/src/components/CommentList.tsx:54-62 | adds an absent id, removes a present one, and leaves other ids alone |
| CommentList.ToggleTwiceRestores | apps/web/src/components/CommentList.tsx:54-62 | toggling the same id twice restores the set |
| CommentList.CommentThread.constructor | apps/web/src/components/CommentList.tsx:15-17 | empty draft, not submitting, nothing expanded |
| CommentList.CommentThread.SetDraft | apps/web/src/components/CommentList.tsx:15 | only the draft changes |
| CommentList.CommentThread.Submit | apps/web/src/components/CommentList.tsx:21-38 | a blank draft or an in-flight submit sends nothing; on success the server comment goes to the callback and the draft is cleared; on failure the draft is kept; never submitting afterwards |
| CommentList.CommentThread.Delete | apps/web/src/components/CommentList.tsx:40-52 | a request goes out iff confirmed; the callback gets the id iff confirmed, the delete succeeded and a callback exists |
| CommentList.CommentThread.ToggleExpand | apps/web/src/components/CommentList.tsx:54-62 | the expanded set is toggled at that id; the draft and flag are unchanged |
| ProjectsPage.FilterProjectsSpec | apps/web/src/pages/Projects.tsx:50-52 | keeps, in order, exactly the projects whose lower-cased name contains the lower-cased query; an empty query keeps all |
| ProjectsPage.RemoveProjectSpec | apps/web/src/pages/Projects.tsx:76 | removes exactly the project with that id, keeping the rest in order |
| ProjectsPage.Page.constructor | apps/web/src/pages/Projects.tsx:15-21 | no projects or workspaces, loading, empty query, nothing deleting, no workspace selected |
| ProjectsPage.Page.FetchProjects | apps/web/src/pages/Projects.tsx:26-36 | the list becomes the fetched one, or is kept on failure; loading ends |
| ProjectsPage.Page.FetchWorkspaces | apps/web/src/pages/Projects.tsx:38-48 | the list is replaced on success; the first workspace is auto-selected only when none is selected and the list is non-empty |
| ProjectsPage.Page.SetSearchQuery | apps/web/src/pages/Projects.tsx:18 | only the query changes |
| ProjectsPage.Page.CreateProject | apps/web/src/pages/Projects.tsx:54-68 | nothing is sent without a selected workspace; otherwise one POST for that workspace, then on success a refetch that replaces the list when it succeeds and leaves loading false either way |
| ProjectsPage.Page.DeleteProject | apps/web/src/pages/Projects.tsx:70-83 | a request goes out iff confirmed; success removes exactly that project; isDeleting is null afterwards |
| SprintsPage.ActiveSprint | apps/web/src/pages/Sprints.tsx:83 | the first sprint with status 'active', or none iff no sprint is active |
| SprintsPage.SectionsSpec | apps/web/src/pages/Sprints.tsx:84-85 | the planned and completed sections hold exactly the sprints of that status, in order |
| SprintsPage.ShownSprintsSpec | apps/web/src/pages/Sprints.tsx:209-234 | a sprint is shown iff it is the active sprint or is planned or completed; later active sprints appear nowhere |
| SprintsPage.OfferedActionsSpec | apps/web/src/pages/Sprints.tsx:134-161 | Start only for 'planning', Complete only for 'active', Delete for every status |
| SprintsPage.OnlyForwardTransitions | apps/web/src/pages/Sprints.tsx:47-66 | every status the page requests is exactly one step forward: planning to active to completed |
| SprintsPage.ProgressBounds | apps/web/src/pages/Sprints.tsx:175 | the width is 0 when there are no points, and between 0 and 100 when completed points are within the total |
| TimeTracking.TotalTimeAppend | apps/web/src/pages/TimeTracking.tsx:71 | the total of two lists of logs is the sum of their totals |
| TimeTracking.TotalTimeBounds | apps/web/src/pages/TimeTracking.tsx:71 | for non-negative entries, the total is non-negative and at least each entry |
| TimeTracking.JsRem | apps/web/src/pages/TimeTracking.tsx:73 | the truncating remainder lies strictly between -b and b, and equals the Euclidean one for a non-negative dividend |
| TimeTracking.HoursMinutesSplit | apps/web/src/pages/TimeTracking.tsx:72-73 | for a non-negative total, hours*60 + minutes is the total and the minutes lie in 0..59 |
| TimeTracking.NegativeMinutesRendering | apps/web/src/pages/TimeTracking.tsx:75-79 | -30 minutes renders as '-1h -30m' (floor for hours, truncation for minutes) |
| TimeTracking.RoundHalfUp | apps/web/src/pages/TimeTracking.tsx:157 | the result is the integer within half a unit of p/q, rounding halves upward |
| TimeTracking.RoundHalfUpUnique | apps/web/src/pages/TimeTracking.tsx:157 | any integer within that half-open interval equals the rounded value |
| TimeTracking.AverageIsRounded | apps/web/src/pages/TimeTracking.tsx:157 | the average label is formatTime of any integer within half a unit of total/entries |
| TimeTracking.EmptySummary | apps/web/src/pages/TimeTracking.tsx:71-79 | with no logs the figures are '0h 0m', 0 entries and '0h 0m' |
| TimeTracking.SummarySpec | apps/web/src/pages/TimeTracking.tsx:144-157 | the entry count is the number of logs; the total label is formatTime of the summed minutes; for a non-empty list the average label is formatTime of the integer within half a unit of total/entries (halves up); with no logs total and average both read '0h 0m' |
| IssuesSlice.FindIssueIndex | apps/web/src/store/slices/issuesSlice.ts:75 | -1 iff no issue has the id, otherwise the first position holding it |
| IssuesSlice.ReplaceAt | apps/web/src/store/slices/issuesSlice.ts:77 | same length; the given position holds the new issue and every other position is unchanged |
| IssuesSlice.IssuesState.constructor | apps/web/src/store/slices/issuesSlice.ts:12 | no issues, no current issue, not loading, no error |
| IssuesSlice.IssuesState.SetCurrentIssue | apps/web/src/store/slices/issuesSlice.ts:47-49 | only currentIssue changes |
| IssuesSlice.IssuesState.UpdateIssueStatus | apps/web/src/store/slices/issuesSlice.ts:50-55 | the first issue with that id gets the status; an absent id is a no-op; length and other issues are unchanged |
| IssuesSlice.IssuesState.FetchPending | apps/web/src/store/slices/issuesSlice.ts:59-62 | loading, with the error cleared |
| IssuesSlice.IssuesState.FetchFulfilled | apps/web/src/store/slices/issuesSlice.ts:63-66 | the list is replaced and loading ends |
| IssuesSlice.IssuesState.FetchRejected | apps/web/src/store/slices/issuesSlice.ts:67-70 | loading ends and the error is the message, or 'Failed to fetch issues' |
| IssuesSlice.IssuesState.CreateFulfilled | apps/web/src/store/slices/issuesSlice.ts:71-73 | the payload is appended at the end, so length grows by one |
| IssuesSlice.IssuesState.UpdateFulfilled | apps/web/src/store/slices/issuesSlice.ts:74-79 | the first issue with the payload's id is replaced; an absent id is a no-op |
| AuthSlice.AuthState.constructor | apps/web/src/store/slices/authSlice.ts:13-19 | unauthenticated even when a token is stored; not loading; no error |
| AuthSlice.AuthState.Logout | apps/web/src/store/slices/authSlice.ts:56-61 | user and token become null and the state is unauthenticated; isLoading and error are untouched |
| AuthSlice.AuthState.ClearError | apps/web/src/store/slices/authSlice.ts:62-64 | only the error is reset |
| AuthSlice.AuthState.Pending | apps/web/src/store/slices/authSlice.ts:68-71 | loading, with the error cleared (login and register alike) |
| AuthSlice.AuthState.Fulfilled | apps/web/src/store/slices/authSlice.ts:72-77 | authenticated with the payload's user and token; loading ends |
| AuthSlice.AuthState.Rejected | apps/web/src/store/slices/authSlice.ts:78-81 | loading ends and the error is the message or the fallback; authentication is unchanged |
| AuthSlice.AuthState.LoginRejected | apps/web/src/store/slices/authSlice.ts:78-81 | as Rejected, with fallback 'Login failed' |
| AuthSlice.AuthState.RegisterRejected | apps/web/src/store/slices/authSlice.ts:92-95 | as Rejected, with fallback 'Registration failed' |
| AuthSlice.AuthState.FetchCurrentUserFulfilled | apps/web/src/store/slices/authSlice.ts:96-99 | the user is set and the state is authenticated |
| AuthSlice.AuthState.FetchCurrentUserRejected | apps/web/src/store/slices/authSlice.ts:100-103 | only the token is cleared |
| ProjectsSlice.ProjectsState.constructor | apps/web/src/store/slices/projectsSlice.ts:12 | no projects, no current project, not loading, no error |
| ProjectsSlice.ProjectsState.SetCurrentProject | apps/web/src/store/slices/projectsSlice.ts:39-41 | only currentProject changes |
| ProjectsSlice.ProjectsState.FetchPending | apps/web/src/store/slices/projectsSlice.ts:45-48 | loading, with the error cleared |
| ProjectsSlice.ProjectsState.FetchFulfilled | apps/web/src/store/slices/projectsSlice.ts:49-52 | the list is replaced and loading ends |
| ProjectsSlice.ProjectsState.FetchRejected | apps/web/src/store/slices/projectsSlice.ts:53-56 | loading ends and the error is the message, or 'Failed to fetch projects' |
| ProjectsSlice.ProjectsState.CreateFulfilled | apps/web/src/store/slices/projectsSlice.ts:57-59 | exactly one project is appended at the end |
| UiSlice.OrNull | apps/web/src/store/slices/uiSlice.ts:28 | truthy data is kept, and falsy data becomes null |
| UiSlice.UiState.constructor | apps/web/src/store/slices/uiSlice.ts:11-17 | sidebar open, no modal, null data, theme 'system', no workspace |
| UiSlice.UiState.ToggleSidebar | apps/web/src/store/slices/uiSlice.ts:23-25 | sidebarOpen is negated, so toggling twice is the identity; nothing else changes |
| UiSlice.UiState.OpenModal | apps/web/src/store/slices/uiSlice.ts:26-29 | the modal is the given name, and the data is kept or becomes null when falsy |
| UiSlice.UiState.CloseModal | apps/web/src/store/slices/uiSlice.ts:30-33 | modal and data are null; theme, sidebar and workspace are untouched |
| UiSlice.UiState.SetTheme | apps/web/src/store/slices/uiSlice.ts:34-36 | only the theme changes |
| UiSlice.UiState.SetSelectedWorkspace | apps/web/src/store/slices/uiSlice.ts:37-39 | only the selected workspace changes |
| Store.ThrownStatuses | apps/api/src/middleware/errorHandler.ts:25-54 | a missing record (P2025) is answered 404 NOT_FOUND; null for a required column is answered 500 'Internal server error' |
| IssuesRoute.GetIssue | apps/api/src/routes/issues.ts:12-50 | 200 with the stored issue iff it exists, otherwise 404 'Issue not found' |
| IssuesRoute.IssueKeyInjective | apps/api/src/routes/issues.ts:99 | for one project key, distinct counts give distinct keys |
| IssuesRoute.IssueKeyShape | apps/api/src/routes/issues.ts:99 | the key is the project key, a dash, and digits that parse back to count+1 |
| IssuesRoute.KeyRecursAfterDeletion | apps/api/src/routes/issues.ts:99 | after a deletion, the next key can equal the key of an issue still stored |
| IssuesRoute.FirstTodoState | apps/api/src/routes/issues.ts:91-97 | none iff the workflow has no 'todo' state; otherwise a 'todo' state of that workflow with the lowest order |
| IssuesRoute.DefaultStatus | apps/api/src/routes/issues.ts:114 | 'To Do' without a todo state, otherwise the name of the lowest-order todo state |
| IssuesRoute.OrDefaultValue | apps/api/src/routes/issues.ts:66 | an absent value takes the default, a supplied one is kept, and null stays null |
| IssuesRoute.NewIssueDefaults | apps/api/src/routes/issues.ts:101-132 | a row exists iff priority is not null; it has the key, trimmed title, priority 'medium' when absent and as sent otherwise, the default status, the requester as reporter and sole watcher, and the labels as a set |
| IssuesRoute.CreateIssue | apps/api/src/routes/issues.ts:54-138 | an unknown project gives 404; a null priority then throws a validation error; neither writes anything; otherwise exactly the new issue is stored, one 'issue_created' event goes to its project room, and the reply is 201 |
| IssuesRoute.CreateBumpsCount | apps/api/src/routes/issues.ts:99 | storing a new issue raises its project's count by one and leaves other projects' counts alone |
| IssuesRoute.PatchChangesOnlySuppliedFields | apps/api/src/routes/issues.ts:157-169 | an absent field keeps its value, a present one is stored, and null clears description, assignee, sprint and story points; id, type, project, key, reporter, parent and watchers never change; a truthy due date is stored and a falsy one keeps the old date; present labelIds become exactly the label set, an empty list clearing it |
| IssuesRoute.EmptyPatchIsIdentity | apps/api/src/routes/issues.ts:157-169 | a body with no fields leaves the issue unchanged |
| IssuesRoute.UpdateIssue | apps/api/src/routes/issues.ts:142-186 | a null for title, status or priority throws a validation error whether or not the issue exists; otherwise a missing issue throws P2025; neither writes anything; otherwise the patch is stored, one 'issue_updated' event is emitted, and the reply is 200 |
| IssuesRoute.NewComment | apps/api/src/routes/issues.ts:204-215 | the comment has the new id, the issue, the requester as author, and the trimmed content |
| IssuesRoute.AddComment | apps/api/src/routes/issues.ts:189-222 | a missing issue gives 404 and writes nothing; otherwise exactly the comment is stored, one 'comment_added' event is emitted, and the reply is 201 |
| SprintsRoute.ListSprints | apps/api/src/routes/sprints.ts:10-27 | filtered by project only when a truthy projectId is given, otherwise every sprint |
| SprintsRoute.GetSprint | apps/api/src/routes/sprints.ts:29-51 | 200 with the stored sprint iff it exists, otherwise 404 'Sprint not found' |
| SprintsRoute.NewSprintDefaults | apps/api/src/routes/sprints.ts:62-71 | status 'planning', trimmed name, falsy dates stored as null |
| SprintsRoute.CreateSprint | apps/api/src/routes/sprints.ts:53-75 | exactly the new sprint is stored and the reply is 201 |
| SprintsRoute.PatchSprintSpec | apps/api/src/routes/sprints.ts:85-90 | name and status change only for truthy values; goal absent keeps, '' clears, other stores; dates absent keep, falsy clear, other store |
| SprintsRoute.AnyStatusTransition | apps/api/src/routes/sprints.ts:90 | any truthy status is accepted from any current status, and an empty one changes nothing |
| SprintsRoute.UpdateSprint | apps/api/src/routes/sprints.ts:77-95 | a missing sprint throws P2025 and writes nothing; otherwise exactly the patched sprint is stored and the reply is 200 |
| SprintsRoute.DeleteSprint | apps/api/src/routes/sprints.ts:97-106 | a missing sprint throws P2025 and writes nothing; otherwise exactly that sprint is removed and the reply is 204 |
| ProjectsRoute.ListProjects | apps/api/src/routes/projects.ts:11-45 | exactly the projects that are public, or private with the requester as a member |
| ProjectsRoute.GetProject | apps/api/src/routes/projects.ts:114-154 | 200 iff the project exists and is public or has the requester as a member, otherwise 404 'Project not found' |
| ProjectsRoute.ListAndGetAgree | apps/api/src/routes/projects.ts:15-30 | for public and private projects, list and get agree; they differ only for another visibility value with the requester as a member |
| ProjectsRoute.DefaultStatesShape | apps/api/src/routes/projects.ts:71-83 | four states in order: To Do (todo, 0), In Progress (in_progress, 1), Review (in_progress, 2), Done (done, 3) |
| ProjectsRoute.NewProjectDefaults | apps/api/src/routes/projects.ts:85-107 | the generated id, trimmed name, trimmed upper-cased key, the description and workspace as sent, type 'kanban' and visibility 'public' unless given, the new workflow, and the creator as lead and only member with role 'lead' |
| ProjectsRoute.StoredKeyIsUpperCase | apps/api/src/routes/projects.ts:89 | the stored key has no lower-case ASCII letter and is the upper-cased trimmed key |
| ProjectsRoute.CreateProject | apps/api/src/routes/projects.ts:48-111 | a non-member gets 403 and nothing is written; otherwise the workflow, its four states and the project are stored and the reply is 201 |
| ProjectsRoute.FirstIssueOfNewProject | apps/api/src/routes/projects.ts:71-107 | unless its priority is null, the first issue of a new project is written with status 'To Do' and key project key + '-1' |
| ProjectsRoute.Spread | apps/api/src/routes/projects.ts:163-169 | one equality constraint for a truthy filter value and none otherwise |
| ProjectsRoute.IssueWhereCount | apps/api/src/routes/projects.ts:160-169 | the query is always scoped to the project and has one extra constraint per truthy filter |
| ProjectsRoute.IssueWhereMembers | apps/api/src/routes/projects.ts:160-169 | each truthy filter contributes exactly its own column constraint |
| ProjectsRoute.ProjectIssuesSpec | apps/api/src/routes/projects.ts:157-184 | an issue is returned iff it is in the project and matches every truthy filter |
| AuthMiddleware.AuthenticateSpec | apps/api/src/middleware/auth.ts:19-65 | no Bearer header gives 401 'Access denied'; a missing secret gives 500; a token that fails to verify gets the as-written catch block's answer; a missing or inactive user gives 401 'User not found or inactive'; the request passes iff none of these happens, and req.user takes the stored user's id, email and role |
| AuthMiddleware.ExpiredTokenThroughGuard | apps/api/src/middleware/auth.ts:33-64 | through the whole guard an expired token gets 401 'Invalid token' as written and 401 'Token expired' with the corrected catch block; every other request gets the same answer from both |
| AuthMiddleware.TokenIsHeaderAfterPrefix | apps/api/src/middleware/auth.ts:27-47 | for a header "Bearer " + token, the guard's answer is decided by verifying exactly that token: a thrown error gets the catch block's answer, and a verified one passes iff its user is stored and active |
| AuthMiddleware.CaughtResponse | apps/api/src/middleware/auth.ts:57-64 | an expired token gives 401 'Token expired', another JWT error gives 401 'Invalid token', and anything else gives 500 |
| AuthMiddleware.ExpiredTokenReportedAsInvalid | apps/api/src/middleware/auth.ts:57-64 | as written, an expired token gets 'Invalid token', and no error ever gets 'Token expired' |
| AuthMiddleware.CorrectedDiffersOnlyOnExpiry | apps/api/src/middleware/auth.ts:57-64 | the corrected and as-written handlers differ exactly on an expired token |
| AuthMiddleware.RequireRole | apps/api/src/middleware/auth.ts:67-79 | 401 without a user, 403 for an unlisted role, otherwise next with that user |
| ErrorHandler.PrismaMapping | apps/api/src/middleware/errorHandler.ts:18-35 | P2002 is 409 DUPLICATE_ENTRY, P2025 is 404 NOT_FOUND, any other code is 500 carrying it, whatever the error's name |
| ErrorHandler.JwtNameMapping | apps/api/src/middleware/errorHandler.ts:38-50 | 'JsonWebTokenError' is 401 INVALID_TOKEN and 'TokenExpiredError' is 401 TOKEN_EXPIRED |
| ErrorHandler.DefaultMapping | apps/api/src/middleware/errorHandler.ts:53-59 | status is statusCode or 500; the message passes only for operational errors; the stack appears only in development |
| ErrorHandler.CreateError | apps/api/src/middleware/errorHandler.ts:62-67 | an operational plain error with that message and status |
| ErrorHandler.CreateErrorRoundTrip | apps/api/src/middleware/errorHandler.ts:62-67 | handling createError(m, s) with s not 0 responds with status s and message m |
| FormSchema.Check | apps/web/src/hooks/useIssueForm.ts:6-8 | one issue at the path with the message iff the check fails |
| FormSchema.Resolve | apps/web/src/hooks/useIssueForm.ts:25-31 | resolves with the values iff there are no issues, otherwise rejects with them |
| FormSchema.RequiredEnum | apps/web/src/hooks/useIssueForm.ts:13-18 | no issue iff a value is present and is one of the options |
| FormSchema.OptionalEnum | apps/web/src/hooks/useProjectForm.ts:14-15 | no issue iff the value is absent or one of the options |
| FormSchema.Length | apps/web/src/hooks/useIssueForm.ts:6-8 | no issue iff the length lies within the bounds |
| FormSchema.OptionalMax | apps/web/src/hooks/useProjectForm.ts:13 | no issue iff the value is absent or within the maximum length |
| IssueForm.IssueSchemaIssues | apps/web/src/hooks/useIssueForm.ts:5-21 | no issues iff the form is valid; issues only on title, description, type or priority |
| IssueForm.IssueFormResolution | apps/web/src/hooks/useIssueForm.ts:25-31 | resolves with the input iff valid, otherwise rejects |
| IssueForm.DescriptionBounds | apps/web/src/hooks/useIssueForm.ts:9-12 | '' is treated like an absent description; a description over 5000 characters is refused |
| IssueForm.DefaultIssueFormRejected | apps/web/src/hooks/useIssueForm.ts:33-38 | the defaults fail only on the title, so an untouched form is rejected |
| LabelForm.LabelSchemaIssues | apps/web/src/hooks/useLabelForm.ts:5-12 | no issues iff the name has 1..50 characters and the colour matches the hex pattern; an empty colour gives at least two issues |
| LabelForm.LabelFormResolution | apps/web/src/hooks/useLabelForm.ts:16-22 | resolves with the input iff valid, otherwise rejects |
| LabelForm.HexColorExamples | apps/web/src/hooks/useLabelForm.ts:9-11 | both cases accepted; a short, long, unprefixed or non-hex colour is refused |
| LabelForm.DefaultLabelFormRejected | apps/web/src/hooks/useLabelForm.ts:24-27 | the default colour is valid, and the only issue of the defaults is the empty name |
| LabelForm.PaletteColorsValid | apps/web/src/components/LabelForm.tsx:17-26 | every palette colour matches the colour pattern |
| TimeLogForm.TimeLogSchemaIssues | apps/web/src/hooks/useTimeLogForm.ts:5-15 | no issues iff the time parses to a positive number, the description is at most 500 characters and a date is given |
| TimeLogForm.TimeLogFormResolution | apps/web/src/hooks/useTimeLogForm.ts:19-25 | resolves with the input iff valid, otherwise rejects |
| TimeLogForm.TimeSpentAccepted | apps/web/src/hooks/useTimeLogForm.ts:8-9 | '12abc' and '90' are accepted |
| TimeLogForm.TimeSpentRefused | apps/web/src/hooks/useTimeLogForm.ts:8-9 | '0', '-5', ' ' and 'abc' are refused |
| TimeLogForm.NegativeFiveParses | apps/web/src/hooks/useTimeLogForm.ts:8-9 | '-5' parses to -5, so it is refused by the positivity check and not by the number check |
| TimeLogForm.DefaultTimeLogFormRejected | apps/web/src/hooks/useTimeLogForm.ts:27-31 | the empty default time gives exactly the three time-spent issues |
| SprintForm.SprintSchemaIssues | apps/web/src/hooks/useSprintForm.ts:5-15 | no issues iff the name has 3..100 characters and the goal is absent, '' or at most 500 |
| SprintForm.SprintFormResolution | apps/web/src/hooks/useSprintForm.ts:19-25 | resolves with the input iff valid, whatever the dates |
| SprintForm.EndBeforeStartAccepted | apps/web/src/hooks/useSprintForm.ts:13-14 | an end date before the start date is accepted |
| SprintForm.DefaultSprintFormRejected | apps/web/src/hooks/useSprintForm.ts:27-32 | the empty defaults fail only on the name |
| WorkspaceForm.WorkspaceSchemaIssues | apps/web/src/hooks/useWorkspaceForm.ts:5-13 | no issues iff the name has 3..100 characters and the description is absent, '' or at most 500 |
| WorkspaceForm.WorkspaceFormResolution | apps/web/src/hooks/useWorkspaceForm.ts:16-22 | resolves with the input iff valid, with no errors |
| WorkspaceForm.DefaultWorkspaceFormRejected | apps/web/src/hooks/useWorkspaceForm.ts:25-28 | the empty default name is the only issue |
| ProjectForm.ProjectSchemaIssues | apps/web/src/hooks/useProjectForm.ts:11-16 | no issues iff the name has 2..100 characters, the description is at most 500, and type and visibility are absent or allowed |
| ProjectForm.ProjectFormResolution | apps/web/src/hooks/useProjectForm.ts:20-26 | resolves with the input iff valid, otherwise rejects |
| ProjectForm.DefaultProjectFormRejected | apps/web/src/hooks/useProjectForm.ts:28-33 | the defaults (kanban, private) fail only on the empty name |
| RegisterForm.RegisterSchemaIssues | apps/web/src/hooks/useRegisterForm.ts:11-21 | no issues iff name, e-mail and both passwords are valid and equal; a mismatch ends with 'Passwords do not match' on confirmPassword |
| RegisterForm.MatchingPasswordsResolve | apps/web/src/hooks/useRegisterForm.ts:18 | equal passwords of at least 8 characters, with a valid name and e-mail, resolve with the input |
| RegisterForm.MismatchRejected | apps/web/src/hooks/useRegisterForm.ts:18-21 | differing passwords are rejected with the mismatch issue on confirmPassword |
| Common.OrDefault | apps/web/src/store/slices/authSlice.ts:80 | `value || fallback`: a truthy value is kept, and otherwise the fallback is used |
| Common.TrimEmptyIffBlank | apps/web/src/components/CommentList.tsx:23 | the trimmed string is empty iff every character is whitespace |
| Common.ParseIntOfRendering | apps/api/src/routes/issues.ts:99 | parseInt of a rendered natural followed by anything reads back that natural |
| WebTypes.IssueIds | apps/web/src/pages/Board.tsx:270 | the ids of the issues, position by position |

## Left out

- Socket transport, room joins and delivery are not modelled.
  - The client handlers are state updates on a received event.
  - The server's emits are recorded in `Store.Db.emits`.
  - The client listens for events the server never sends to rooms it joins (apps/api/src/server.ts is not part of this model).
- Prisma itself is not modelled: foreign keys, connecting label ids that do not exist, and the database schema (so whether issue keys are unique is not known).
  - Query results are sets, because the `createdAt` ordering is not modelled.
  - Relation `include`s and `_count`s are not modelled.
- Validation of the express-validator chains on non-string fields is not modelled. The routes are assumed to receive strings where the sanitizers trim.
- Promise.all in the bulk handlers is concurrent. The model takes one "all requests succeeded" flag and does not model partial failure.
- Client and server halves are not connected: the client sends PATCH where the server defines PUT, and some routers are not mounted.
- `jwt.verify`, bcrypt and zod's e-mail syntax are functions passed in.
- Date parsing and `toLocaleDateString`: dates are kept as strings, and notification ages are integer milliseconds.
- Strings are sequences of characters, not UTF-16 code units, so lengths differ for characters outside the BMP. Case mapping is ASCII only.
- Floating point: the sprint progress width is a real, and `NaN` is modelled as a failed `parseInt`.
- Side effects that only reach the user are not modelled: localStorage writes, toasts, modals and navigation.
- Board.tsx's `handleCreateIssue` and `handleEditIssue` only post or put a form and refetch. They are not modelled.
- The thin CRUD routers (workspaces, users, labels, time-logs, attachments) and useLoginForm are not part of this model.
- ProjectsRoute.CreateProject: the membership query receives `workspaceId` as sent. An undefined `workspaceId`, which Prisma would treat as no filter, is not modelled.
- AuthMiddleware.AuthenticateSpec: an exception thrown by the user lookup is not modelled.
- UiSlice.OrNull: modal data numbers are integers, so a fractional number or NaN (falsy, hence stored as null) is not representable.
- FormSchema.RequiredEnum: zod's built-in message for a value outside the enum is abbreviated to a fixed string.

## Findings

| source | as written | input that shows it | evidently intended | confidence | as-written member | corrected member |
|---|---|---|---|---|---|---|
| apps/api/src/middleware/auth.ts:57-64 | the catch block tests `instanceof jwt.JsonWebTokenError` before `instanceof jwt.TokenExpiredError`, and TokenExpiredError is a subclass of JsonWebTokenError | a well-formed token whose `exp` has passed, so jwt.verify throws TokenExpiredError | 401 'Token expired' for an expired token, 'Invalid token' for other JWT errors | not executed; follows from jsonwebtoken's class hierarchy | AuthMiddleware.ExpiredTokenReportedAsInvalid | AuthMiddleware.CaughtResponse |
