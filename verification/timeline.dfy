/**
 * `TimelineAgent.process`: the first scheduling pass.  Each task gets a buffered duration from
 * its complexity and is laid end to end after the previous one, counting only Monday to
 * Friday towards its duration.  `datetime.now()` is the parameter `today`; durations are in
 * tenths of a day.
 */
module Timeline {
  import opened Wrappers
  import opened Plan
  import opened Calendar

  /** `self.duration_map.get(task.get('complexity', 'medium'), 5)`. */
  function BaseDays(complexity: Option<string>): nat {
    var c := complexity.GetOr("medium");
    if c == "low" then 2
    else if c == "medium" then 5
    else if c == "high" then 10
    else 5
  }

  /** `duration * 1.2`, in tenths of a day. */
  function BufferedTenths(complexity: Option<string>): nat {
    BaseDays(complexity) * 12
  }

  /** The task with the three keys the loop writes. */
  function Scheduled(t: Task, start: int): Task {
    var tenths := BufferedTenths(t.complexity);
    t.(duration := Some(tenths), startDate := Some(start),
       endDate := Some(AddBusinessDays(start, CeilTenths(tenths))))
  }

  /** `current_date` once the tasks in `done` are laid out: the day after the last end. */
  function NextStart(done: seq<Task>, today: int): int {
    if done == [] then today else done[|done| - 1].endDate.GetOr(today) + 1
  }

  /** The tasks after the loop: each laid out from the day after its predecessor's end. */
  function Laid(tasks: seq<Task>, today: int): (r: seq<Task>)
    ensures |r| == |tasks|
  {
    if tasks == [] then []
    else
      var prev := Laid(tasks[..|tasks| - 1], today);
      prev + [Scheduled(tasks[|tasks| - 1], NextStart(prev, today))]
  }

  /** `total_days`, in tenths: the sum of the buffered durations. */
  function TotalTenths(tasks: seq<Task>): nat {
    if tasks == [] then 0 else TotalTenths(tasks[..|tasks| - 1]) + BufferedTenths(tasks[|tasks| - 1].complexity)
  }

  /** The sum of the written durations. */
  function SumDurations(tasks: seq<Task>): int {
    if tasks == [] then 0 else SumDurations(tasks[..|tasks| - 1]) + tasks[|tasks| - 1].duration.GetOr(0)
  }

  /** The loop of `process`: write the three keys of each task and advance the cursor. */
  method LayOut(original: seq<Task>, today: int) returns (tasks: seq<Task>, totalTenths: nat)
    ensures tasks == Laid(original, today)
    ensures totalTenths == TotalTenths(original)
  {
    tasks := original;
    var currentDate := today;
    totalTenths := 0;
    for i := 0 to |original|
      invariant |tasks| == |original|
      invariant tasks == Laid(original[..i], today) + original[i..]
      invariant currentDate == NextStart(Laid(original[..i], today), today)
      invariant totalTenths == TotalTenths(original[..i])
    {
      LaidSnoc(original, today, i);
      var task := tasks[i];
      var duration := BufferedTenths(task.complexity);
      var endDate := WalkBusinessDays(currentDate, duration);
      ReplaceAt(Laid(original[..i], today), original[i..], task.(duration := Some(duration), startDate := Some(currentDate), endDate := Some(endDate)));
      tasks := tasks[i := task.(duration := Some(duration), startDate := Some(currentDate), endDate := Some(endDate))];
      currentDate := endDate + 1;
      totalTenths := totalTenths + duration;
    }
    assert original[..|original|] == original;
  }

  /** One more iteration lays out one more task. */
  lemma LaidSnoc(tasks: seq<Task>, today: int, i: nat)
    requires i < |tasks|
    ensures var prev := Laid(tasks[..i], today);
            && Laid(tasks[..i + 1], today) == prev + [Scheduled(tasks[i], NextStart(prev, today))]
            && TotalTenths(tasks[..i + 1]) == TotalTenths(tasks[..i]) + BufferedTenths(tasks[i].complexity)
            && tasks[i..] == [tasks[i]] + tasks[i + 1..]
  {
    assert tasks[..i + 1][..i] == tasks[..i];
  }

  /** Writing position |done| of `done + rest` moves the written item into the done part. */
  lemma ReplaceAt<T>(done: seq<T>, rest: seq<T>, x: T)
    requires rest != []
    ensures (done + rest)[|done| := x] == (done + [x]) + rest[1..]
  {
  }

  /** `process(state)`: only the tasks and `total_duration = int(total_days)` are written. */
  method Process(state: PlanState, today: int)
    modifies state
    ensures state.tasks == Laid(old(state.tasks), today)
    ensures state.totalDuration == TotalTenths(old(state.tasks)) / 10
    ensures state.description == old(state.description) && state.dependencies == old(state.dependencies)
    ensures state.parallelGroups == old(state.parallelGroups) && state.criticalPath == old(state.criticalPath)
    ensures state.projectStart == old(state.projectStart) && state.projectEnd == old(state.projectEnd)
    ensures state.outputs == old(state.outputs)
  {
    var tasks, totalTenths := LayOut(state.tasks, today);
    state.tasks := tasks;
    state.totalDuration := totalTenths / 10;
  }

  /** Laying out a prefix gives the prefix of the layout. */
  lemma {:induction false} LaidPrefix(tasks: seq<Task>, today: int, n: nat)
    requires n <= |tasks|
    ensures Laid(tasks[..n], today) == Laid(tasks, today)[..n]
  {
    if n < |tasks| {
      var init := tasks[..|tasks| - 1];
      LaidPrefix(init, today, n);
      assert init[..n] == tasks[..n];
    } else {
      assert tasks[..n] == tasks;
    }
  }

  /** Task i is laid out from the day after the end of task i - 1 (from today for the first). */
  lemma LaidAt(tasks: seq<Task>, today: int, i: nat)
    requires i < |tasks|
    ensures Laid(tasks, today)[i] == Scheduled(tasks[i], NextStart(Laid(tasks, today)[..i], today))
  {
    LaidPrefix(tasks, today, i + 1);
    LaidPrefix(tasks, today, i);
    LaidSnoc(tasks, today, i);
    assert Laid(tasks, today)[..i + 1][i] == Laid(tasks, today)[i];
  }

  /** Only `duration`, `start_date` and `end_date` are written, and the duration is the buffered one. */
  lemma LaidFields(tasks: seq<Task>, today: int, i: nat)
    requires i < |tasks|
    ensures var r := Laid(tasks, today)[i];
            && r.duration == Some(BufferedTenths(tasks[i].complexity))
            && r.startDate.Some? && r.endDate.Some?
            && r == tasks[i].(duration := r.duration, startDate := r.startDate, endDate := r.endDate)
  {
    LaidAt(tasks, today, i);
  }

  /** The first task starts on the current date. */
  lemma FirstStartsToday(tasks: seq<Task>, today: int)
    requires tasks != []
    ensures Laid(tasks, today)[0].startDate == Some(today)
  {
    LaidAt(tasks, today, 0);
  }

  /** Each later task starts the calendar day after the previous task ends, weekend or not. */
  lemma StartsDayAfterPrevious(tasks: seq<Task>, today: int, i: nat)
    requires 0 < i < |tasks|
    ensures Laid(tasks, today)[i - 1].endDate.Some?
    ensures Laid(tasks, today)[i].startDate == Some(Laid(tasks, today)[i - 1].endDate.value + 1)
  {
    LaidAt(tasks, today, i);
    LaidAt(tasks, today, i - 1);
  }

  /**
   * A task ends on a business day after its start: the first day by which ceil(duration)
   * business days have elapsed after the start.
   */
  lemma EndDate(tasks: seq<Task>, today: int, i: nat)
    requires i < |tasks|
    ensures var r := Laid(tasks, today)[i];
            && r.startDate.Some? && r.endDate.Some? && r.duration.Some?
            && r.startDate.value < r.endDate.value && IsBusinessDay(r.endDate.value)
            && BusinessDaysBetween(r.startDate.value, r.endDate.value) == CeilTenths(r.duration.value)
            && forall d :: r.startDate.value <= d < r.endDate.value ==>
                 BusinessDaysBetween(r.startDate.value, d) < CeilTenths(r.duration.value)
  {
    LaidAt(tasks, today, i);
    var r := Laid(tasks, today)[i];
    var n := CeilTenths(r.duration.value);
    AddBusinessDaysCount(r.startDate.value, n);
    forall d | r.startDate.value <= d < r.endDate.value
      ensures BusinessDaysBetween(r.startDate.value, d) < n
    {
      AddBusinessDaysFirst(r.startDate.value, n, d);
    }
  }

  /** Tasks never overlap: every task starts after each earlier task has ended. */
  lemma {:induction false} NoOverlap(tasks: seq<Task>, today: int, j: nat, i: nat)
    requires j < i < |tasks|
    ensures Laid(tasks, today)[j].endDate.Some? && Laid(tasks, today)[i].startDate.Some?
    ensures Laid(tasks, today)[j].endDate.value < Laid(tasks, today)[i].startDate.value
  {
    StartsDayAfterPrevious(tasks, today, i);
    if j < i - 1 {
      NoOverlap(tasks, today, j, i - 1);
      EndDate(tasks, today, i - 1);
    }
    LaidFields(tasks, today, i);
  }

  /** The buffered durations: 2.4 days for low, 12 for high, 6 for medium, missing or anything else. */
  lemma DurationTable(complexity: Option<string>)
    ensures complexity == Some("low") ==> BufferedTenths(complexity) == 24
    ensures complexity == Some("high") ==> BufferedTenths(complexity) == 120
    ensures complexity != Some("low") && complexity != Some("high") ==> BufferedTenths(complexity) == 60
  {
  }

  /** `total_days` is the sum of the durations written on the tasks. */
  lemma {:induction false} TotalIsSumOfDurations(tasks: seq<Task>, today: int)
    ensures TotalTenths(tasks) == SumDurations(Laid(tasks, today))
  {
    if tasks != [] {
      var init := tasks[..|tasks| - 1];
      TotalIsSumOfDurations(init, today);
      var r := Laid(tasks, today);
      assert r[..|r| - 1] == Laid(init, today);
    }
  }

  /** A low task started on a Tuesday ends on Friday, so the next task starts on a Saturday. */
  lemma SaturdayStart(first: Task, second: Task)
    requires first.complexity == Some("low")
    ensures Laid([first, second], 1)[1].startDate == Some(5) && Weekday(5) == 5
  {
    DurationTable(first.complexity);
    assert CeilTenths(24) == 3;
    assert AddBusinessDays(1, 3) == 4 by {
      assert AddBusinessDays(1, 1) == 2;
      assert AddBusinessDays(1, 2) == 3;
    }
    StartsDayAfterPrevious([first, second], 1, 1);
    LaidAt([first, second], 1, 0);
  }
}
