/** The task list page: the fetched tasks, the search box and the status filter.
    `fetchTasks` is a sequence of state updates driven by the envelope `getTasks`
    resolves to; the visible rows are a pure filter of the state. */
module Tasks {
  import opened Wrappers
  import opened Text
  import opened Api
  import Utils

  // ---------------------------------------------------------------------------
  // getStatusLabel
  // ---------------------------------------------------------------------------

  /** `getStatusLabel`: the display label of a status. The task list, the task detail
      page and the dashboard each carry this same switch. */
  function StatusLabel(status: string): string {
    match status
    case "COMPLETED" => "Completed"
    case "CLAIMED" => "Claimed"
    case "AVAILABLE" => "Available"
    case "FAILED" => "Failed"
    case _ => status
  }

  /** A word with its first letter kept and the rest in lower case. */
  function Capitalised(word: string): (r: string)
    requires word != ""
    ensures |r| == |word| && r[0] == word[0]
  {
    [word[0]] + Lower(word[1..])
  }

  /** The four known statuses are shown capitalised. */
  lemma StatusLabelCapitalises(status: string)
    requires Utils.IsKnownStatus(status)
    ensures StatusLabel(status) == Capitalised(status)
  {
    if status == "COMPLETED" {
      CompletedLabel();
    } else if status == "CLAIMED" {
      ClaimedLabel();
    } else if status == "AVAILABLE" {
      AvailableLabel();
    } else {
      FailedLabel();
    }
  }

  lemma CompletedLabel()
    ensures StatusLabel("COMPLETED") == Capitalised("COMPLETED")
  {
    LabelOf("COMPLETED", "Completed");
  }

  lemma ClaimedLabel()
    ensures StatusLabel("CLAIMED") == Capitalised("CLAIMED")
  {
    LabelOf("CLAIMED", "Claimed");
  }

  lemma AvailableLabel()
    ensures StatusLabel("AVAILABLE") == Capitalised("AVAILABLE")
  {
    LabelOf("AVAILABLE", "Available");
  }

  lemma FailedLabel()
    ensures StatusLabel("FAILED") == Capitalised("FAILED")
  {
    LabelOf("FAILED", "Failed");
  }

  lemma LabelOf(status: string, shown: string)
    requires status != "" && |shown| == |status| && shown[0] == status[0]
    requires forall i :: 1 <= i < |status| ==> 'A' <= status[i] <= 'Z' && shown[i] as int == status[i] as int + 32
    ensures Capitalised(status) == shown
  {
    var rest := status[1..];
    assert forall i :: 0 <= i < |rest| ==> 'A' <= rest[i] <= 'Z' && shown[1..][i] as int == rest[i] as int + 32;
    LowerWord(rest, shown[1..]);
  }

  lemma {:induction false} LowerWord(upper: string, lower: string)
    requires |upper| == |lower|
    requires forall i :: 0 <= i < |upper| ==> 'A' <= upper[i] <= 'Z' && lower[i] as int == upper[i] as int + 32
    ensures Lower(upper) == lower
  {
    if |upper| > 0 {
      LowerWord(upper[1..], lower[1..]);
    }
  }

  /** Any other status is shown as it is. */
  lemma StatusLabelKeepsOthers(status: string)
    requires !Utils.IsKnownStatus(status)
    ensures StatusLabel(status) == status
  {
  }

  // ---------------------------------------------------------------------------
  // filteredTasks
  // ---------------------------------------------------------------------------

  /** The search predicate: the lower-cased name contains the lower-cased term, or the
      task has an assignee whose lower-cased form contains it. */
  predicate Matches(task: TaskDetails, term: string) {
    Contains(Lower(task.name), Lower(term))
    || (task.assignee.Some? && Contains(Lower(task.assignee.value), Lower(term)))
  }

  /** `tasks.filter(...)`: the tasks that match, in their order, each occurrence of a
      matching task kept and every other one dropped. */
  function FilterTasks(tasks: seq<TaskDetails>, term: string): (r: seq<TaskDetails>)
    ensures forall t :: t in r ==> t in tasks && Matches(t, term)
    ensures forall t :: t in tasks && Matches(t, term) ==> t in r
    ensures forall t :: multiset(r)[t] == if Matches(t, term) then multiset(tasks)[t] else 0
    ensures |r| <= |tasks|
  {
    if |tasks| == 0 then []
    else
      assert tasks == [tasks[0]] + tasks[1..];
      if Matches(tasks[0], term) then [tasks[0]] + FilterTasks(tasks[1..], term)
      else FilterTasks(tasks[1..], term)
  }

  /** `xs` is `ys` with some elements left out, the rest in the same order. */
  predicate IsSubsequence<T(==)>(xs: seq<T>, ys: seq<T>)
    decreases |ys|
  {
    |xs| == 0
    || (|ys| > 0 && ((xs[0] == ys[0] && IsSubsequence(xs[1..], ys[1..])) || IsSubsequence(xs, ys[1..])))
  }

  /** The filter keeps the fetched order. */
  lemma {:induction false} FilterIsSubsequence(tasks: seq<TaskDetails>, term: string)
    ensures IsSubsequence(FilterTasks(tasks, term), tasks)
  {
    if |tasks| > 0 {
      FilterIsSubsequence(tasks[1..], term);
      var rest := FilterTasks(tasks[1..], term);
      if Matches(tasks[0], term) {
        assert ([tasks[0]] + rest)[1..] == rest;
      }
    }
  }

  /** An empty search term keeps every task. */
  lemma {:induction false} EmptyTermKeepsAll(tasks: seq<TaskDetails>)
    ensures FilterTasks(tasks, "") == tasks
  {
    if |tasks| > 0 {
      ContainsEmpty(Lower(tasks[0].name));
      EmptyTermKeepsAll(tasks[1..]);
    }
  }

  /** The letter case of the search term does not matter. */
  lemma {:induction false} FilterIgnoresTermCase(tasks: seq<TaskDetails>, term: string)
    ensures FilterTasks(tasks, term) == FilterTasks(tasks, Lower(term))
  {
    LowerIdempotent(term);
    if |tasks| > 0 {
      FilterIgnoresTermCase(tasks[1..], term);
    }
  }

  /** The status filter as `getTasks` receives it: `all` means no status. */
  function StatusArg(statusFilter: string): (r: Option<string>)
    ensures r.None? <==> statusFilter == "all"
    ensures r.Some? ==> r.value == statusFilter
  {
    if statusFilter == "all" then None else Some(statusFilter)
  }

  // ---------------------------------------------------------------------------
  // The page
  // ---------------------------------------------------------------------------

  class TasksPage {
    var tasks: seq<TaskDetails>
    var loading: bool
    var searchTerm: string
    var statusFilter: string

    constructor ()
      ensures tasks == [] && loading && searchTerm == "" && statusFilter == "all"
    {
      tasks := [];
      loading := true;
      searchTerm := "";
      statusFilter := "all";
    }

    /** The rows the table shows. */
    function FilteredTasks(): seq<TaskDetails>
      reads this
    {
      FilterTasks(tasks, searchTerm)
    }

    /** `fetchTasks()` given the envelope `getTasks` resolves to: returns the filters it
        passes, keeps the previous list when there is no data, and ends not loading. */
    method FetchTasks(response: ApiResponse<seq<TaskDetails>>) returns (filters: TaskFilters)
      modifies this
      ensures filters == TaskFilters(StatusArg(statusFilter), None, None)
      ensures tasks == if response.data.Some? then response.data.value else old(tasks)
      ensures !loading
      ensures searchTerm == old(searchTerm) && statusFilter == old(statusFilter)
    {
      loading := true;
      filters := TaskFilters(if statusFilter == "all" then None else Some(statusFilter), None, None);
      if response.data.Some? {
        tasks := response.data.value;
      }
      loading := false;
    }
  }
}
