/**
 * `DependencyAgent._adjust_timeline`: the second scheduling pass.  Tasks are visited in list
 * order; a task with a known dependency is moved to the first business day after the latest
 * current end date of its known dependencies, and its end date is recomputed from its
 * duration.  `task_map` holds, for each id, the last task with that id, and reads see the
 * end dates written earlier in the same pass.
 */
module Reschedule {
  import opened Wrappers
  import opened Graphs
  import opened Plan
  import opened Calendar

  /** The duration used when a task has none: five days, in tenths. */
  const DefaultTenths := 50

  /** `{t["id"]: t for t in tasks}`, as the index of the last task with each id. */
  function TaskMap(tasks: seq<Task>): map<string, nat> {
    if tasks == [] then map[] else TaskMap(tasks[..|tasks| - 1])[tasks[|tasks| - 1].id := |tasks| - 1]
  }

  /** The task map sends each id to the last task with that id. */
  lemma {:induction false} TaskMapLast(tasks: seq<Task>)
    ensures forall id :: id in TaskMap(tasks) ==> TaskMap(tasks)[id] < |tasks| && tasks[TaskMap(tasks)[id]].id == id
    ensures forall i :: 0 <= i < |tasks| ==> tasks[i].id in TaskMap(tasks) && i <= TaskMap(tasks)[tasks[i].id]
  {
    if tasks != [] {
      var init := tasks[..|tasks| - 1];
      TaskMapLast(init);
      assert forall i :: 0 <= i < |init| ==> init[i] == tasks[i];
    }
  }

  /** The ids the task map holds are the task ids. */
  lemma TaskMapKeys(tasks: seq<Task>, id: string)
    ensures id in TaskMap(tasks) <==> id in IdSet(tasks)
  {
    TaskMapLast(tasks);
    if id in IdSet(tasks) {
      var i :| 0 <= i < |tasks| && tasks[i].id == id;
    }
  }

  /** Every index of the map is an index of a list of length n. */
  ghost predicate InRange(m: map<string, nat>, n: nat) {
    forall id :: id in m ==> m[id] < n
  }

  /**
   * The current end date of the task `m` holds for id.  The pass is only run on dated
   * tasks, so the 0 for a missing date or index is never read.
   */
  function EndOf(cur: seq<Task>, m: map<string, nat>, id: string): int {
    if id in m && m[id] < |cur| then cur[m[id]].endDate.GetOr(0) else 0
  }

  /** The latest current end date among the dependencies that are task ids, if any is. */
  function LatestEnd(cur: seq<Task>, m: map<string, nat>, deps: seq<string>): Option<int>
  {
    if deps == [] then None
    else
      var prev := LatestEnd(cur, m, deps[..|deps| - 1]);
      var d := deps[|deps| - 1];
      if d !in m then prev
      else if prev.None? || EndOf(cur, m, d) > prev.value then Some(EndOf(cur, m, d))
      else prev
  }

  /** LatestEnd is absent exactly when no dependency is known, and is otherwise their greatest end. */
  lemma {:induction false} LatestEndIsMax(cur: seq<Task>, m: map<string, nat>, deps: seq<string>)
    ensures LatestEnd(cur, m, deps).None? <==> forall d :: d in deps ==> d !in m
    ensures LatestEnd(cur, m, deps).Some? ==>
      (forall d :: d in deps && d in m ==> EndOf(cur, m, d) <= LatestEnd(cur, m, deps).value)
      && exists d :: d in deps && d in m && EndOf(cur, m, d) == LatestEnd(cur, m, deps).value
  {
    if deps != [] {
      var init := deps[..|deps| - 1];
      LatestEndIsMax(cur, m, init);
      assert deps == init + [deps[|deps| - 1]];
      var prev := LatestEnd(cur, m, init);
      if prev.Some? {
        var w :| w in init && w in m && EndOf(cur, m, w) == prev.value;
        assert w in deps;
      }
    }
  }

  /** The inner loop: `latest_end` over the dependencies found in `task_map`. */
  method LatestDependencyEnd(cur: seq<Task>, m: map<string, nat>, deps: seq<string>) returns (latest: Option<int>)
    requires Dated(cur) && InRange(m, |cur|)
    ensures latest == LatestEnd(cur, m, deps)
  {
    latest := None;
    var k := 0;
    while k < |deps|
      invariant k <= |deps|
      invariant latest == LatestEnd(cur, m, deps[..k])
    {
      var dep := deps[k];
      assert deps[..k + 1][..k] == deps[..k];
      if dep in m {
        var depEnd := cur[m[dep]].endDate.value;
        assert depEnd == EndOf(cur, m, dep);
        if latest.None? || depEnd > latest.value {
          latest := Some(depEnd);
        }
      }
      k := k + 1;
    }
    assert deps[..k] == deps;
  }

  /** The new dates of a task whose latest known dependency ends on `latestEnd`. */
  function Moved(t: Task, latestEnd: int): (r: Task)
    ensures r.id == t.id && r.name == t.name && r.description == t.description
    ensures r.category == t.category && r.complexity == t.complexity
    ensures r.duration == t.duration && r.dependencies == t.dependencies
    ensures r.startDate == Some(NextBusinessDay(latestEnd))
    ensures r.endDate == Some(AddBusinessDays(NextBusinessDay(latestEnd), CeilTenths(t.duration.GetOr(DefaultTenths))))
  {
    var start := NextBusinessDay(latestEnd);
    t.(startDate := Some(start), endDate := Some(AddBusinessDays(start, CeilTenths(t.duration.GetOr(DefaultTenths)))))
  }

  /** Task i as iteration i of the outer loop leaves it, given the list as it stands then. */
  function Visit(cur: seq<Task>, g: Graph, m: map<string, nat>, i: nat): (t: Task)
    requires i < |cur|
    ensures t.id == cur[i].id
  {
    var deps := Deps(g, cur[i].id);
    var latest := LatestEnd(cur, m, deps);
    if deps != [] && latest.Some? then Moved(cur[i], latest.value) else cur[i]
  }

  /** The first n tasks as the first n iterations of the outer loop leave them. */
  function Visited(tasks: seq<Task>, g: Graph, n: nat): (done: seq<Task>)
    requires n <= |tasks|
    ensures |done| == n
    ensures forall j :: 0 <= j < n ==> done[j].id == tasks[j].id
  {
    if n == 0 then []
    else
      var prev := Visited(tasks, g, n - 1);
      prev + [Visit(prev + tasks[n - 1..], g, TaskMap(tasks), n - 1)]
  }

  /** The task list after the whole pass. */
  function Rescheduled(tasks: seq<Task>, g: Graph): (r: seq<Task>)
    requires Dated(tasks)
    ensures |r| == |tasks| && Dated(r)
    ensures forall j :: 0 <= j < |tasks| ==> r[j].id == tasks[j].id
  {
    VisitedDated(tasks, g, |tasks|);
    Visited(tasks, g, |tasks|)
  }

  /** The pass leaves every task dated. */
  lemma {:induction false} VisitedDated(tasks: seq<Task>, g: Graph, n: nat)
    requires Dated(tasks) && n <= |tasks|
    ensures Dated(Visited(tasks, g, n))
  {
    if n > 0 {
      var prev := Visited(tasks, g, n - 1);
      VisitedDated(tasks, g, n - 1);
      var cur := prev + tasks[n - 1..];
      assert cur[n - 1] == tasks[n - 1];
      var t := Visit(cur, g, TaskMap(tasks), n - 1);
      assert t.startDate.Some? && t.endDate.Some?;
      assert Visited(tasks, g, n) == prev + [t];
    }
  }

  /** Task map indices stay in range of a list with the same ids. */
  lemma TaskMapInRange(tasks: seq<Task>, cur: seq<Task>)
    requires |cur| == |tasks|
    ensures InRange(TaskMap(tasks), |cur|)
  {
    TaskMapLast(tasks);
  }

  /** Task j is changed only by iteration j: later iterations leave it as it is. */
  lemma {:induction false} VisitedFrame(tasks: seq<Task>, g: Graph, n: nat, j: nat)
    requires j < n <= |tasks|
    ensures Visited(tasks, g, n)[j] == Visited(tasks, g, j + 1)[j]
  {
    if n - 1 != j {
      VisitedFrame(tasks, g, n - 1, j);
    }
  }

  /** The dates task i ends up with: moved after its known dependencies' ends as they stand at iteration i, or kept. */
  lemma FinalTask(tasks: seq<Task>, g: Graph, i: nat)
    requires Dated(tasks) && i < |tasks|
    ensures var cur := Visited(tasks, g, i) + tasks[i..];
            var latest := LatestEnd(cur, TaskMap(tasks), Deps(g, tasks[i].id));
            Rescheduled(tasks, g)[i] == if latest.Some? then Moved(tasks[i], latest.value) else tasks[i]
  {
    VisitedFrame(tasks, g, |tasks|, i);
    var cur := Visited(tasks, g, i) + tasks[i..];
    var latest := LatestEnd(cur, TaskMap(tasks), Deps(g, tasks[i].id));
    if latest.Some? {
      LatestEndIsMax(cur, TaskMap(tasks), Deps(g, tasks[i].id));
    }
  }

  /** A task none of whose dependencies is a task id keeps its dates. */
  lemma UnknownDependenciesKeepDates(tasks: seq<Task>, g: Graph, i: nat)
    requires Dated(tasks) && i < |tasks|
    requires forall d :: d in Deps(g, tasks[i].id) ==> d !in IdSet(tasks)
    ensures Rescheduled(tasks, g)[i] == tasks[i]
  {
    FinalTask(tasks, g, i);
    var cur := Visited(tasks, g, i) + tasks[i..];
    forall d | d in Deps(g, tasks[i].id)
      ensures d !in TaskMap(tasks)
    {
      TaskMapKeys(tasks, d);
    }
    LatestEndIsMax(cur, TaskMap(tasks), Deps(g, tasks[i].id));
  }

  /**
   * A task with a known dependency starts on a business day after the end date every known
   * dependency has at that point, and ends once its duration in business days has elapsed.
   */
  lemma MovedTask(tasks: seq<Task>, g: Graph, i: nat, d: string)
    requires Dated(tasks) && i < |tasks|
    requires d in Deps(g, tasks[i].id) && d in IdSet(tasks)
    ensures var t := Rescheduled(tasks, g)[i];
            var cur := Visited(tasks, g, i) + tasks[i..];
            var start := t.startDate.value;
            var n := CeilTenths(tasks[i].duration.GetOr(DefaultTenths));
            && IsBusinessDay(start)
            && EndOf(cur, TaskMap(tasks), d) < start
            && BusinessDaysBetween(start, t.endDate.value) == n
            && t.id == tasks[i].id && t.duration == tasks[i].duration
  {
    FinalTask(tasks, g, i);
    var cur := Visited(tasks, g, i) + tasks[i..];
    var m := TaskMap(tasks);
    TaskMapKeys(tasks, d);
    LatestEndIsMax(cur, m, Deps(g, tasks[i].id));
    var latest := LatestEnd(cur, m, Deps(g, tasks[i].id));
    AddBusinessDaysCount(NextBusinessDay(latest.value), CeilTenths(tasks[i].duration.GetOr(DefaultTenths)));
  }

  /**
   * When a dependency is listed before its dependent (and is the last task with its id), the
   * dependent ends up starting after the dependency ends: the dependency's dates are final by
   * the time the dependent is visited.
   */
  lemma DependencyListedEarlier(tasks: seq<Task>, g: Graph, i: nat, k: nat)
    requires Dated(tasks) && k < i < |tasks|
    requires tasks[k].id in Deps(g, tasks[i].id)
    requires forall j :: k < j < |tasks| ==> tasks[j].id != tasks[k].id
    ensures Rescheduled(tasks, g)[k].endDate.value < Rescheduled(tasks, g)[i].startDate.value
  {
    var d := tasks[k].id;
    var m := TaskMap(tasks);
    TaskMapLast(tasks);
    assert m[d] == k;
    assert d in IdSet(tasks);
    MovedTask(tasks, g, i, d);
    VisitedFrame(tasks, g, i, k);
    VisitedFrame(tasks, g, |tasks|, k);
    var cur := Visited(tasks, g, i) + tasks[i..];
    assert cur[k] == Visited(tasks, g, i)[k];
  }

  /**
   * List order is not dependency order: task "a" depends on "b", which depends on "c", but
   * "a" is listed first.  "a" is moved after the end "b" has before "b" itself is moved, and
   * ends up starting (on day 2) before "b" ends (on day 18).
   */
  lemma StaleDependencyEnd()
    ensures "b" in Deps(ExampleGraph(), "a")
    ensures Rescheduled(ExampleTasks(), ExampleGraph())[0].startDate == Some(2)
    ensures Rescheduled(ExampleTasks(), ExampleGraph())[1].endDate == Some(18)
  {
    ExampleFirst();
    ExampleSecond();
  }

  /** Tasks "a", "b", "c" on days 0-1, 0-1 and 0-10. */
  function ExampleTasks(): (tasks: seq<Task>)
    ensures |tasks| == 3 && Dated(tasks)
  {
    [DatedTask("a", 0, 1), DatedTask("b", 0, 1), DatedTask("c", 0, 10)]
  }

  /** "a" depends on "b", and "b" on "c". */
  function ExampleGraph(): Graph {
    [("a", ["b"]), ("b", ["c"])]
  }

  /** The task map of the example. */
  lemma ExampleMap()
    ensures "b" in TaskMap(ExampleTasks()) && TaskMap(ExampleTasks())["b"] == 1
    ensures "c" in TaskMap(ExampleTasks()) && TaskMap(ExampleTasks())["c"] == 2
  {
    var tasks := ExampleTasks();
    TaskMapLast(tasks);
    assert tasks[0].id == "a" && tasks[1].id == "b" && tasks[2].id == "c";
  }

  /** "a" is moved after the end "b" has when "a" is visited. */
  lemma ExampleFirst()
    ensures "b" in Deps(ExampleGraph(), "a")
    ensures Rescheduled(ExampleTasks(), ExampleGraph())[0].startDate == Some(2)
  {
    var tasks := ExampleTasks();
    var g := ExampleGraph();
    var m := TaskMap(tasks);
    ExampleMap();
    assert tasks[0].id == "a";
    assert Deps(g, "a") == ["b"];
    FinalTask(tasks, g, 0);
    assert Visited(tasks, g, 0) + tasks[0..] == tasks;
    LatestOfOne(tasks, m, "b");
    assert EndOf(tasks, m, "b") == 1;
    ExampleDays();
    assert Rescheduled(tasks, g)[0] == Moved(tasks[0], 1);
  }

  /** "b" is then moved after "c". */
  lemma ExampleSecond()
    ensures Rescheduled(ExampleTasks(), ExampleGraph())[1].endDate == Some(18)
  {
    var tasks := ExampleTasks();
    var g := ExampleGraph();
    var m := TaskMap(tasks);
    ExampleMap();
    assert tasks[1].id == "b";
    assert Deps(g, "b") == ["c"];
    FinalTask(tasks, g, 1);
    var cur := Visited(tasks, g, 1) + tasks[1..];
    assert cur[2] == tasks[2];
    LatestOfOne(cur, m, "c");
    assert EndOf(cur, m, "c") == 10;
    ExampleDays();
    assert Rescheduled(tasks, g)[1] == Moved(tasks[1], 10);
  }

  /** With one known dependency the latest end is that dependency's end. */
  lemma LatestOfOne(cur: seq<Task>, m: map<string, nat>, d: string)
    requires d in m
    ensures LatestEnd(cur, m, [d]) == Some(EndOf(cur, m, d))
  {
    assert [d][..0] == [];
  }

  /** The calendar facts of the example: Tuesday after Monday, Friday after Thursday, five days from a Friday. */
  lemma ExampleDays()
    ensures NextBusinessDay(1) == 2 && NextBusinessDay(10) == 11
    ensures AddBusinessDays(11, CeilTenths(DefaultTenths)) == 18
  {
    assert CeilTenths(DefaultTenths) == 5;
    assert AddBusinessDays(11, 1) == 14;
    assert AddBusinessDays(11, 2) == 15;
    assert AddBusinessDays(11, 3) == 16;
    assert AddBusinessDays(11, 4) == 17;
  }

  /** A task with only an id and its dates. */
  function DatedTask(id: string, start: int, end: int): (t: Task)
    ensures t.id == id && t.startDate == Some(start) && t.endDate == Some(end) && t.duration.None?
  {
    Task(id, "", "", None, None, None, Some(start), Some(end), None)
  }

  /** Every date of every task, start then end, in list order (`all_dates`). */
  function AllDates(tasks: seq<Task>): (ds: seq<int>)
    requires Dated(tasks)
    ensures |ds| == 2 * |tasks|
    ensures forall i :: 0 <= i < |tasks| ==> ds[2 * i] == tasks[i].startDate.value && ds[2 * i + 1] == tasks[i].endDate.value
  {
    if tasks == [] then []
    else [tasks[0].startDate.value, tasks[0].endDate.value] + AllDates(tasks[1..])
  }

  /** `lo` and `hi` are the earliest and the latest of the dates. */
  ghost predicate IsSpan(ds: seq<int>, lo: int, hi: int) {
    lo in ds && hi in ds && forall k :: 0 <= k < |ds| ==> lo <= ds[k] <= hi
  }

  /** The recounted project fields: the span of the task dates and the number of days it covers. */
  ghost predicate SpanRecorded(tasks: seq<Task>, start: Option<int>, end: Option<int>, total: int) {
    && Dated(tasks) && start.Some? && end.Some?
    && IsSpan(AllDates(tasks), start.value, end.value)
    && start.value <= end.value
    && total == end.value - start.value
  }

  /** `min(all_dates)` and `max(all_dates)`, after collecting the dates in a loop. */
  method DateSpan(tasks: seq<Task>) returns (lo: int, hi: int)
    requires Dated(tasks) && tasks != []
    ensures IsSpan(AllDates(tasks), lo, hi) && lo <= hi
  {
    var allDates: seq<int> := [];
    var i := 0;
    while i < |tasks|
      invariant i <= |tasks|
      invariant allDates == AllDates(tasks[..i])
    {
      assert AllDates(tasks[..i + 1]) == AllDates(tasks[..i]) + [tasks[i].startDate.value, tasks[i].endDate.value] by {
        AllDatesSnoc(tasks[..i + 1]);
        assert tasks[..i + 1][..i] == tasks[..i];
      }
      allDates := allDates + [tasks[i].startDate.value, tasks[i].endDate.value];
      i := i + 1;
    }
    assert tasks[..i] == tasks;
    lo := SeqMin(allDates);
    hi := SeqMax(allDates);
  }

  lemma {:induction false} AllDatesSnoc(tasks: seq<Task>)
    requires Dated(tasks) && tasks != []
    ensures AllDates(tasks) == AllDates(tasks[..|tasks| - 1]) + [tasks[|tasks| - 1].startDate.value, tasks[|tasks| - 1].endDate.value]
  {
    var init := tasks[..|tasks| - 1];
    var last := [tasks[|tasks| - 1].startDate.value, tasks[|tasks| - 1].endDate.value];
    var first := [tasks[0].startDate.value, tasks[0].endDate.value];
    if init == [] {
      assert AllDates(tasks) == first + AllDates([]);
    } else {
      var rest := tasks[1..];
      AllDatesSnoc(rest);
      assert rest[..|rest| - 1] == init[1..];
      assert init[0] == tasks[0];
      assert AllDates(init) == first + AllDates(init[1..]);
      calc {
        AllDates(tasks);
        first + AllDates(rest);
        first + (AllDates(init[1..]) + last);
        (first + AllDates(init[1..])) + last;
      }
    }
  }

  /** Python's `min(xs)`. */
  function SeqMin(xs: seq<int>): (r: int)
    requires xs != []
    ensures r in xs && forall k :: 0 <= k < |xs| ==> r <= xs[k]
  {
    if |xs| == 1 then xs[0]
    else
      var rest := SeqMin(xs[1..]);
      assert forall k :: 1 <= k < |xs| ==> xs[k] == xs[1..][k - 1];
      if xs[0] <= rest then xs[0] else rest
  }

  /** Python's `max(xs)`. */
  function SeqMax(xs: seq<int>): (r: int)
    requires xs != []
    ensures r in xs && forall k :: 0 <= k < |xs| ==> xs[k] <= r
  {
    if |xs| == 1 then xs[0]
    else
      var rest := SeqMax(xs[1..]);
      assert forall k :: 1 <= k < |xs| ==> xs[k] == xs[1..][k - 1];
      if xs[0] >= rest then xs[0] else rest
  }

  /** The outer loop of `_adjust_timeline`, on the task list it updates in place. */
  method RescheduleTasks(original: seq<Task>, dependencies: Graph) returns (tasks: seq<Task>)
    requires Dated(original)
    ensures tasks == Rescheduled(original, dependencies)
  {
    tasks := original;
    var taskMap := TaskMap(tasks);
    var i := 0;
    while i < |tasks|
      invariant i <= |tasks| == |original|
      invariant tasks == Visited(original, dependencies, i) + original[i..]
      invariant Dated(tasks)
    {
      TaskMapInRange(original, tasks);
      CurrentStep(original, dependencies, i);
      ghost var visit := Visit(tasks, dependencies, taskMap, i);
      var task := tasks[i];
      var deps := Deps(dependencies, task.id);
      if deps != [] {
        var latest := LatestDependencyEnd(tasks, taskMap, deps);
        if latest.Some? {
          var start := RollToBusinessDay(latest.value + 1);
          var end := WalkBusinessDays(start, task.duration.GetOr(DefaultTenths));
          tasks := tasks[i := task.(startDate := Some(start), endDate := Some(end))];
        } else {
          assert tasks == tasks[i := visit];
        }
      } else {
        assert tasks == tasks[i := visit];
      }
      i := i + 1;
    }
    assert original[i..] == [];
  }

  /** Iteration i replaces task i of the current list by its visited form. */
  lemma CurrentStep(tasks: seq<Task>, g: Graph, i: nat)
    requires Dated(tasks) && i < |tasks|
    ensures var cur := Visited(tasks, g, i) + tasks[i..];
            Visited(tasks, g, i + 1) + tasks[i + 1..] == cur[i := Visit(cur, g, TaskMap(tasks), i)]
  {
  }

  /**
   * `_adjust_timeline(state, dependencies)`: the tasks become the rescheduled list; when
   * there are tasks, the project span is the earliest and latest of their dates and the
   * total duration the number of days between them.
   */
  method AdjustTimeline(state: PlanState, dependencies: Graph)
    requires Dated(state.tasks)
    modifies state
    ensures state.tasks == Rescheduled(old(state.tasks), dependencies)
    ensures old(state.tasks) != [] ==>
      SpanRecorded(state.tasks, state.projectStart, state.projectEnd, state.totalDuration)
    ensures old(state.tasks) == [] ==>
      && state.projectStart == old(state.projectStart)
      && state.projectEnd == old(state.projectEnd)
      && state.totalDuration == old(state.totalDuration)
    ensures state.description == old(state.description) && state.dependencies == old(state.dependencies)
    ensures state.parallelGroups == old(state.parallelGroups) && state.criticalPath == old(state.criticalPath)
    ensures state.outputs == old(state.outputs)
  {
    var tasks := RescheduleTasks(state.tasks, dependencies);
    state.tasks := tasks;
    if tasks != [] {
      var lo, hi := DateSpan(tasks);
      state.totalDuration := hi - lo;
      state.projectStart := Some(lo);
      state.projectEnd := Some(hi);
    }
  }
}
