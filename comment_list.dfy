/** The comment thread under an issue (apps/web/src/components/CommentList.tsx): the draft,
    the in-flight flag, the set of expanded comments, and the submit and delete handlers.
    The server's answers and the confirm() dialog are parameters. */
module CommentList {
  import opened Common
  import opened WebTypes

  /** POST /issues/:issueId/comments with the draft as sent (untrimmed). */
  datatype CommentPost = CommentPost(issueId: string, content: string)

  /** The submit guard: an all-blank draft or a submission in flight sends nothing. */
  predicate SubmitBlocked(draft: string, isSubmitting: bool) {
    Trim(draft) == "" || isSubmitting
  }

  /** A draft is blocked for blankness exactly when it consists of white space only. */
  lemma SubmitBlockedIffBlank(draft: string)
    ensures SubmitBlocked(draft, false) <==> forall k :: 0 <= k < |draft| ==> IsJsSpace(draft[k])
  {
    TrimEmptyIffBlank(draft);
  }

  /** The expanded set after toggling one comment: added when absent, removed when present. */
  function Toggled(expanded: set<string>, id: string): (r: set<string>)
    ensures id in r <==> id !in expanded
    ensures forall x :: x != id ==> (x in r <==> x in expanded)
  {
    if id in expanded then expanded - {id} else expanded + {id}
  }

  lemma ToggleTwiceRestores(expanded: set<string>, id: string)
    ensures Toggled(Toggled(expanded, id), id) == expanded
  {
  }

  class CommentThread {
    const issueId: string
    var newComment: string
    var isSubmitting: bool
    var expandedComments: set<string>

    constructor(issueId: string)
      ensures this.issueId == issueId && newComment == "" && !isSubmitting && expandedComments == {}
    {
      this.issueId := issueId;
      newComment := "";
      isSubmitting := false;
      expandedComments := {};
    }

    method SetDraft(text: string)
      modifies this
      ensures newComment == text && isSubmitting == old(isSubmitting) && expandedComments == old(expandedComments)
    {
      newComment := text;
    }

    /** handleSubmit. `response` is the comment the server returns, None when the POST fails.
        Returns the request sent and the comment handed to onAddComment. */
    method Submit(response: Option<Comment>) returns (posted: Option<CommentPost>, added: Option<Comment>)
      modifies this
      ensures SubmitBlocked(old(newComment), old(isSubmitting)) ==>
        posted == None && added == None && newComment == old(newComment) && isSubmitting == old(isSubmitting)
      ensures !SubmitBlocked(old(newComment), old(isSubmitting)) ==>
        && posted == Some(CommentPost(issueId, old(newComment)))
        && added == response
        && newComment == (if response.Some? then "" else old(newComment))
        && !isSubmitting
      ensures expandedComments == old(expandedComments)
    {
      if SubmitBlocked(newComment, isSubmitting) {
        return None, None;
      }
      isSubmitting := true;
      posted := Some(CommentPost(issueId, newComment));
      added := None;
      if response.Some? {
        added := response;
        newComment := "";
      }
      isSubmitting := false;
    }

    /** handleDelete. Returns whether the DELETE was sent and the id handed to onDeleteComment
        (None when there is no such callback, or the user cancelled, or the request failed). */
    method Delete(commentId: string, confirmed: bool, deleteSucceeded: bool, hasCallback: bool)
      returns (sent: bool, deletedCallbackArg: Option<string>)
      ensures sent <==> confirmed
      ensures deletedCallbackArg.Some? <==> confirmed && deleteSucceeded && hasCallback
      ensures deletedCallbackArg.Some? ==> deletedCallbackArg.value == commentId
    {
      if !confirmed {
        return false, None;
      }
      sent := true;
      deletedCallbackArg := if deleteSucceeded && hasCallback then Some(commentId) else None;
    }

    method ToggleExpand(commentId: string)
      modifies this
      ensures expandedComments == Toggled(old(expandedComments), commentId)
      ensures newComment == old(newComment) && isSubmitting == old(isSubmitting)
    {
      var next := expandedComments;
      if commentId in next {
        next := next - {commentId};
      } else {
        next := next + {commentId};
      }
      expandedComments := next;
    }
  }
}
