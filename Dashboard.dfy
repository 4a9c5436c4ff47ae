/** The dashboard: everything it shows is derived from the user statistics the query
    resolves to, by slices, `||` defaults and conditionals. The statistics call is an
    abstract envelope. */
module Dashboard {
  import opened Wrappers
  import opened Text
  import opened Api
  import Utils

  datatype OverdueTask = OverdueTask(id: string, name: string, daysOverdue: int)

  datatype QuickStats = QuickStats(activeTasks: Option<int>, completedTasks: Option<int>,
                                   runningProcesses: Option<int>, availableTasks: Option<int>)

  datatype ProcessActivity = ProcessActivity(recentlyStartedProcesses: Option<seq<ProcessInstance>>,
                                             activeProcessCount: Option<int>)

  /** The statistics the dashboard reads; `completedByStatus` is
      `tasksByStatus.COMPLETED`. */
  datatype UserStats = UserStats(quickStats: QuickStats, recentTasks: Option<seq<TaskDetails>>,
                                 overdueTasks: Option<seq<OverdueTask>>, processActivity: ProcessActivity,
                                 completedByStatus: Option<int>)

  /** What the statistics query settles to: the data, or a rejection with a message. */
  datatype QueryResult = Resolved(stats: UserStats) | Rejected(message: string)

  /** `queryFn`: the data when the envelope has it, otherwise a thrown
      `Error('Failed to fetch user statistics')`. */
  function QueryFn(response: ApiResponse<UserStats>): (r: QueryResult)
    ensures r.Resolved? <==> response.data.Some?
    ensures r.Resolved? ==> r.stats == response.data.value
    ensures r.Rejected? ==> r.message == "Failed to fetch user statistics"
  {
    if response.data.Some? then Resolved(response.data.value)
    else Rejected("Failed to fetch user statistics")
  }

  /** The statistics the page renders: those of a resolved query, none while loading or
      after a rejection. */
  function Stats(query: Option<QueryResult>): Option<UserStats> {
    if query.Some? && query.value.Resolved? then Some(query.value.stats) else None
  }

  function Min(a: nat, b: nat): nat {
    if a <= b then a else b
  }

  /** `xs.slice(0, n)`. */
  function Take<T>(xs: seq<T>, n: nat): (r: seq<T>)
    ensures |r| == Min(n, |xs|)
    ensures forall i :: 0 <= i < |r| ==> r[i] == xs[i]
  {
    xs[..Min(n, |xs|)]
  }

  /** `userStats?.recentTasks?.slice(0, 5) || []`. */
  function RecentTasks(stats: Option<UserStats>): (r: seq<TaskDetails>)
    ensures stats.None? || stats.value.recentTasks.None? ==> r == []
    ensures stats.Some? && stats.value.recentTasks.Some? ==>
      var all := stats.value.recentTasks.value;
      |r| == Min(5, |all|) && r == all[..|r|]
  {
    if stats.Some? && stats.value.recentTasks.Some? then Take(stats.value.recentTasks.value, 5) else []
  }

  /** `userStats?.processActivity?.recentlyStartedProcesses?.slice(0, 5) || []`. */
  function RecentInstances(stats: Option<UserStats>): (r: seq<ProcessInstance>)
    ensures stats.None? || stats.value.processActivity.recentlyStartedProcesses.None? ==> r == []
    ensures stats.Some? && stats.value.processActivity.recentlyStartedProcesses.Some? ==>
      var all := stats.value.processActivity.recentlyStartedProcesses.value;
      |r| == Min(5, |all|) && r == all[..|r|]
  {
    if stats.Some? && stats.value.processActivity.recentlyStartedProcesses.Some?
    then Take(stats.value.processActivity.recentlyStartedProcesses.value, 5)
    else []
  }

  /** A quick-stat count with its `|| 0` default (a count of 0 is shown as 0 either
      way). */
  function CountOrZero(count: Option<int>): (shown: int)
    ensures count.Some? ==> shown == count.value
    ensures count.None? ==> shown == 0
  {
    if count.Some? && count.value != 0 then count.value else 0
  }

  /** The four quick-stat numbers: active, completed, running, available, each
      `userStats?.quickStats.x || 0`. */
  function QuickStatCounts(stats: Option<UserStats>): (counts: seq<int>)
    ensures |counts| == 4
    ensures stats.None? ==> counts == [0, 0, 0, 0]
    ensures stats.Some? ==>
      var q := stats.value.quickStats;
      counts == [q.activeTasks.GetOr(0), q.completedTasks.GetOr(0), q.runningProcesses.GetOr(0), q.availableTasks.GetOr(0)]
  {
    if stats.None? then [0, 0, 0, 0]
    else
      var q := stats.value.quickStats;
      [CountOrZero(q.activeTasks), CountOrZero(q.completedTasks),
       CountOrZero(q.runningProcesses), CountOrZero(q.availableTasks)]
  }

  /** The description lines of the completed and running cards:
      `userStats?.tasksByStatus.COMPLETED || 0` total completed, and
      `userStats?.processActivity.activeProcessCount || 0` active processes. */
  function CardDetailCounts(stats: Option<UserStats>): (counts: seq<int>)
    ensures |counts| == 2
    ensures stats.None? ==> counts == [0, 0]
    ensures stats.Some? ==>
      counts == [stats.value.completedByStatus.GetOr(0), stats.value.processActivity.activeProcessCount.GetOr(0)]
  {
    if stats.None? then [0, 0]
    else [CountOrZero(stats.value.completedByStatus), CountOrZero(stats.value.processActivity.activeProcessCount)]
  }

  /** The overdue card: hidden, or the total, the tasks listed and the count of the
      rest announced as "And k more overdue tasks...". */
  datatype OverdueView = Hidden | Shown(total: nat, listed: seq<OverdueTask>, more: Option<nat>)

  function Overdue(stats: Option<UserStats>): (v: OverdueView)
    ensures v.Shown? <==> stats.Some? && stats.value.overdueTasks.Some? && |stats.value.overdueTasks.value| > 0
    ensures v.Shown? ==>
      var all := stats.value.overdueTasks.value;
      && v.total == |all|
      && v.listed == all[..Min(3, |all|)]
      && (v.more.Some? <==> |all| > 3)
      && (v.more.Some? ==> v.more.value == |all| - 3)
  {
    if stats.Some? && stats.value.overdueTasks.Some? && |stats.value.overdueTasks.value| > 0 then
      var all := stats.value.overdueTasks.value;
      Shown(|all|, Take(all, 3), if |all| > 3 then Some(|all| - 3) else None)
    else Hidden
  }

  /** A failed statistics fetch renders the empty dashboard: zero counts, no recent
      tasks or instances, and no overdue card. */
  lemma FailedFetchShowsEmpty(response: ApiResponse<UserStats>)
    requires response.data.None?
    ensures var stats := Stats(Some(QueryFn(response)));
      && stats.None?
      && QuickStatCounts(stats) == [0, 0, 0, 0] && CardDetailCounts(stats) == [0, 0]
      && RecentTasks(stats) == [] && RecentInstances(stats) == [] && Overdue(stats).Hidden?
  {
  }

  /** Every overdue task is accounted for: listed, or counted in "more". */
  lemma OverdueAccountsForAll(stats: Option<UserStats>)
    ensures var v := Overdue(stats);
      v.Shown? ==> |v.listed| + v.more.GetOr(0) == v.total && 1 <= |v.listed| <= 3
  {
  }

  /** The badge of an instance: "Active" while it has a current activity. */
  function InstanceBadge(instance: ProcessInstance): (badge: string)
    ensures badge == "Active" <==> instance.currentActivityId.Some? && instance.currentActivityId.value != ""
    ensures badge != "Active" ==> badge == "Completed"
  {
    if instance.currentActivityId.Some? && instance.currentActivityId.value != "" then "Active" else "Completed"
  }

  /** The assignee line of a recent task. */
  function AssigneeCaption(task: TaskDetails): (caption: string)
    ensures task.assignee.Some? && task.assignee.value != "" ==> caption == task.assignee.value
    ensures task.assignee.None? || task.assignee.value == "" ==> caption == "Unassigned"
  {
    if task.assignee.Some? && task.assignee.value != "" then task.assignee.value else "Unassigned"
  }

  // ---------------------------------------------------------------------------
  // The "Started ... ago" caption
  // ---------------------------------------------------------------------------

  /** The caption under a recent instance as the page writes it: the helper's caption,
      which already ends in ` ago`, between `Started ` and another ` ago`. */
  function StartedCaptionAsWritten(instance: ProcessInstance, dateMs: Option<int>, nowMs: int): string {
    "Started " + Utils.FormatDistanceToNow(instance.startDate, dateMs, nowMs) + " ago"
  }

  /** As written, every dated instance reads "Started 5 minutes ago ago". */
  lemma StartedCaptionRepeatsAgo(instance: ProcessInstance, dateMs: Option<int>, nowMs: int)
    requires instance.startDate.Some? && instance.startDate.value != ""
    ensures EndsWith(StartedCaptionAsWritten(instance, dateMs, nowMs), " ago ago")
  {
    var r := Utils.FormatDistanceToNow(instance.startDate, dateMs, nowMs);
    Utils.CaptionEndsWithAgo(instance.startDate, dateMs, nowMs);
    var c := StartedCaptionAsWritten(instance, dateMs, nowMs);
    assert c == ("Started " + r) + " ago";
    assert c[|c| - 8..] == r[|r| - 4..] + " ago";
  }

  /** The caption as intended: `Started ` and the helper's caption, which supplies the
      single ` ago`. */
  function StartedCaption(instance: ProcessInstance, dateMs: Option<int>, nowMs: int): (caption: string)
    ensures instance.startDate.Some? && instance.startDate.value != "" ==>
      EndsWith(caption, " ago") && !EndsWith(caption, " ago ago")
    ensures instance.startDate.None? || instance.startDate.value == "" ==> caption == "Started -"
  {
    var r := Utils.FormatDistanceToNow(instance.startDate, dateMs, nowMs);
    Utils.CaptionEndsWithAgo(instance.startDate, dateMs, nowMs);
    var c := "Started " + r;
    assert r != "-" ==> c[|c| - 5..] == r[|r| - 5..] == "s ago";
    assert r != "-" ==> c[|c| - 8..][3] == c[|c| - 5] == 's';
    c
  }
}
