/** The task detail page: the loaded task, the three action buttons with their
    confirmation dialogs, and the completion variables typed into the JSON editor.
    Each handler is one sequential step over the envelope its call resolves to; the
    request it issues and what it does next (re-fetch, navigate) are its results. */
module TaskDetail {
  import opened Wrappers
  import opened Json
  import opened Api
  import opened Editor

  /** The call an action handler sends. */
  datatype ActionRequest = ClaimRequest(taskId: string) | CompleteRequest(taskId: string, variables: Json) | FailRequest(taskId: string)

  /** What a handler does after its call: nothing, re-fetch the task, or navigate. */
  datatype FollowUp = NoFollowUp | Refetch(taskId: string) | Navigate(path: string)

  // ---------------------------------------------------------------------------
  // Button guards
  // ---------------------------------------------------------------------------

  /** The Claim button is enabled when no action is running and the task is available. */
  predicate ClaimEnabled(actionLoading: bool, status: string) {
    !(actionLoading || status != "AVAILABLE")
  }

  /** The Complete button is enabled when no action is running and the task is claimed. */
  predicate CompleteEnabled(actionLoading: bool, status: string) {
    !(actionLoading || status != "CLAIMED")
  }

  /** The Fail button is enabled when no action is running and the task is neither
      completed nor failed. */
  predicate FailEnabled(actionLoading: bool, status: string) {
    !(actionLoading || status == "COMPLETED" || status == "FAILED")
  }

  /** Claim and Complete are never offered together, each implies Fail is offered, and
      a running action disables all three. */
  lemma GuardsConsistent(actionLoading: bool, status: string)
    ensures !(ClaimEnabled(actionLoading, status) && CompleteEnabled(actionLoading, status))
    ensures ClaimEnabled(actionLoading, status) ==> FailEnabled(actionLoading, status)
    ensures CompleteEnabled(actionLoading, status) ==> FailEnabled(actionLoading, status)
    ensures actionLoading ==>
      !ClaimEnabled(actionLoading, status) && !CompleteEnabled(actionLoading, status) && !FailEnabled(actionLoading, status)
  {
  }

  /** A completed or failed task offers no action at all. */
  lemma FinishedTaskOffersNothing(actionLoading: bool, status: string)
    requires status == "COMPLETED" || status == "FAILED"
    ensures !ClaimEnabled(actionLoading, status) && !CompleteEnabled(actionLoading, status)
    ensures !FailEnabled(actionLoading, status)
  {
  }

  /** The status the reply to an action reports, if any (`response.data?.status`). */
  function ReplyStatus(response: ApiResponse<StatusReply>): Option<string> {
    if response.data.Some? then response.data.value.status else None
  }

  // ---------------------------------------------------------------------------
  // The page
  // ---------------------------------------------------------------------------

  class TaskDetailPage {
    var task: Option<TaskDetails>
    var loading: bool
    var actionLoading: bool
    var isClaimConfirmOpen: bool
    var isCompleteConfirmOpen: bool
    var isFailConfirmOpen: bool
    var completionVariables: Json

    constructor ()
      ensures task.None? && loading && !actionLoading
      ensures !isClaimConfirmOpen && !isCompleteConfirmOpen && !isFailConfirmOpen
      ensures completionVariables == JObject([])
    {
      task := None;
      loading := true;
      actionLoading := false;
      isClaimConfirmOpen := false;
      isCompleteConfirmOpen := false;
      isFailConfirmOpen := false;
      completionVariables := JObject([]);
    }

    /** `fetchTask(id)` given the envelope `getTask` resolves to: the task is replaced
        only when there is data; loading ends either way. */
    method FetchTask(response: ApiResponse<TaskDetails>)
      modifies this
      ensures task == if response.data.Some? then Some(response.data.value) else old(task)
      ensures !loading
      ensures actionLoading == old(actionLoading) && completionVariables == old(completionVariables)
      ensures isClaimConfirmOpen == old(isClaimConfirmOpen) && isCompleteConfirmOpen == old(isCompleteConfirmOpen)
      ensures isFailConfirmOpen == old(isFailConfirmOpen)
    {
      loading := true;
      loading := false;
      if response.data.Some? {
        task := Some(response.data.value);
      }
    }

    /** Clicking Claim opens its dialog only when the button is enabled. */
    method ClickClaim()
      modifies this
      ensures isClaimConfirmOpen == (old(isClaimConfirmOpen) || (task.Some? && ClaimEnabled(actionLoading, task.value.status)))
      ensures task == old(task) && actionLoading == old(actionLoading) && loading == old(loading)
      ensures isCompleteConfirmOpen == old(isCompleteConfirmOpen) && isFailConfirmOpen == old(isFailConfirmOpen)
      ensures completionVariables == old(completionVariables)
    {
      if task.Some? && ClaimEnabled(actionLoading, task.value.status) {
        isClaimConfirmOpen := true;
      }
    }

    /** Clicking Complete opens its dialog only when the button is enabled. */
    method ClickComplete()
      modifies this
      ensures isCompleteConfirmOpen == (old(isCompleteConfirmOpen) || (task.Some? && CompleteEnabled(actionLoading, task.value.status)))
      ensures task == old(task) && actionLoading == old(actionLoading) && loading == old(loading)
      ensures isClaimConfirmOpen == old(isClaimConfirmOpen) && isFailConfirmOpen == old(isFailConfirmOpen)
      ensures completionVariables == old(completionVariables)
    {
      if task.Some? && CompleteEnabled(actionLoading, task.value.status) {
        isCompleteConfirmOpen := true;
      }
    }

    /** Clicking Fail opens its dialog only when the button is enabled. */
    method ClickFail()
      modifies this
      ensures isFailConfirmOpen == (old(isFailConfirmOpen) || (task.Some? && FailEnabled(actionLoading, task.value.status)))
      ensures task == old(task) && actionLoading == old(actionLoading) && loading == old(loading)
      ensures isClaimConfirmOpen == old(isClaimConfirmOpen) && isCompleteConfirmOpen == old(isCompleteConfirmOpen)
      ensures completionVariables == old(completionVariables)
    {
      if task.Some? && FailEnabled(actionLoading, task.value.status) {
        isFailConfirmOpen := true;
      }
    }

    /** `handleClaim()`: with no task loaded nothing happens; otherwise the claim is sent
        for the task, the action ends and the dialog closes, and the task is re-fetched
        exactly when the reply reports `Claimed`. */
    method HandleClaim(response: ApiResponse<StatusReply>) returns (sent: Option<ActionRequest>, next: FollowUp)
      modifies this
      ensures old(task).None? ==>
        && sent.None? && next == NoFollowUp
        && actionLoading == old(actionLoading) && isClaimConfirmOpen == old(isClaimConfirmOpen)
      ensures old(task).Some? ==>
        && sent == Some(ClaimRequest(old(task).value.id))
        && !actionLoading && !isClaimConfirmOpen
        && next == if ReplyStatus(response) == Some("Claimed") then Refetch(old(task).value.id) else NoFollowUp
      ensures task == old(task) && loading == old(loading) && completionVariables == old(completionVariables)
      ensures isCompleteConfirmOpen == old(isCompleteConfirmOpen) && isFailConfirmOpen == old(isFailConfirmOpen)
    {
      if task.None? {
        return None, NoFollowUp;
      }
      var id := task.value.id;
      actionLoading := true;
      sent := Some(ClaimRequest(id));
      actionLoading := false;
      isClaimConfirmOpen := false;
      if response.data.Some? && response.data.value.status == Some("Claimed") {
        next := Refetch(id);
      } else {
        next := NoFollowUp;
      }
    }

    /** `handleComplete()`: with no task loaded nothing happens; otherwise the current
        completion variables are sent, the action ends and the dialog closes, and the
        page navigates to the task list exactly when the reply reports `Completed`. */
    method HandleComplete(response: ApiResponse<StatusReply>) returns (sent: Option<ActionRequest>, next: FollowUp)
      modifies this
      ensures old(task).None? ==>
        && sent.None? && next == NoFollowUp
        && actionLoading == old(actionLoading) && isCompleteConfirmOpen == old(isCompleteConfirmOpen)
      ensures old(task).Some? ==>
        && sent == Some(CompleteRequest(old(task).value.id, old(completionVariables)))
        && !actionLoading && !isCompleteConfirmOpen
        && next == if ReplyStatus(response) == Some("Completed") then Navigate("/tasks") else NoFollowUp
      ensures task == old(task) && loading == old(loading) && completionVariables == old(completionVariables)
      ensures isClaimConfirmOpen == old(isClaimConfirmOpen) && isFailConfirmOpen == old(isFailConfirmOpen)
    {
      if task.None? {
        return None, NoFollowUp;
      }
      actionLoading := true;
      sent := Some(CompleteRequest(task.value.id, completionVariables));
      actionLoading := false;
      isCompleteConfirmOpen := false;
      if response.data.Some? && response.data.value.status == Some("Completed") {
        next := Navigate("/tasks");
      } else {
        next := NoFollowUp;
      }
    }

    /** `handleFail()`: with no task loaded nothing happens; otherwise the failure is
        sent, the action ends and the dialog closes, and the task is re-fetched exactly
        when the reply reports `Failed`. */
    method HandleFail(response: ApiResponse<StatusReply>) returns (sent: Option<ActionRequest>, next: FollowUp)
      modifies this
      ensures old(task).None? ==>
        && sent.None? && next == NoFollowUp
        && actionLoading == old(actionLoading) && isFailConfirmOpen == old(isFailConfirmOpen)
      ensures old(task).Some? ==>
        && sent == Some(FailRequest(old(task).value.id))
        && !actionLoading && !isFailConfirmOpen
        && next == if ReplyStatus(response) == Some("Failed") then Refetch(old(task).value.id) else NoFollowUp
      ensures task == old(task) && loading == old(loading) && completionVariables == old(completionVariables)
      ensures isClaimConfirmOpen == old(isClaimConfirmOpen) && isCompleteConfirmOpen == old(isCompleteConfirmOpen)
    {
      if task.None? {
        return None, NoFollowUp;
      }
      var id := task.value.id;
      actionLoading := true;
      sent := Some(FailRequest(id));
      actionLoading := false;
      isFailConfirmOpen := false;
      if response.data.Some? && response.data.value.status == Some("Failed") {
        next := Refetch(id);
      } else {
        next := NoFollowUp;
      }
    }

    /** The completion editor's `onChange`: the variables follow the editor only while
        its text parses. */
    method OnCompletionVariablesChange(change: EditorChange)
      modifies this
      ensures completionVariables == if change.errorFree then change.jsObject else old(completionVariables)
      ensures task == old(task) && loading == old(loading) && actionLoading == old(actionLoading)
      ensures isClaimConfirmOpen == old(isClaimConfirmOpen) && isCompleteConfirmOpen == old(isCompleteConfirmOpen)
      ensures isFailConfirmOpen == old(isFailConfirmOpen)
    {
      if change.errorFree {
        completionVariables := change.jsObject;
      }
    }
  }
}
