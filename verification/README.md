# agent-planner planning core in Dafny

A model of the planning pipeline of agent-planner. A project description goes through four
agents, each of which updates a shared `state` dictionary in place, and the orchestrator then
writes the final outputs:

- **Planner** (`planner.dfy`, `response.dfy`): cleans the LLM reply of its code fences and keeps
  at most eight parsed tasks. When the call or the parse fails, it uses a fixed list of three tasks.
- **Timeline** (`timeline.dfy`, `calendar.dfy`): the first scheduling pass. Each task gets a
  duration buffered by 20 % from its complexity. Tasks are then laid end to end, and only Monday
  to Friday counts towards a duration.
- **Dependency** (`dependency_agent.dfy` and the modules it uses):
  - It keeps the LLM's dependency map, parallel groups and critical path when they parse and the
    map has no cycle (`cycles.dfy`, a depth-first search).
  - Otherwise it builds the fallback map from task phases (`fallback.dfy`), layers it into parallel
    groups (`layers.dfy`) and finds a critical path (`critical_path.dfy`, a memoised depth).
  - It then records each task's dependency list and reschedules dependents after their
    dependencies (`reschedule.dfy`, the second pass).
- **Formatter** (`formatter.dfy`): category and complexity counts, the Mermaid Gantt text, the
  JSON statistics and the dependency-graph nodes and edges. All of these are merged into `outputs`.
- **Orchestrator** (`orchestrator.dfy`): the Markdown plan and the summary, which replace `outputs`.

Shared pieces:

- `plan.dfy` holds the task record and the `PlanState` class for the `state` dictionary.
- `dicts.dfy` models insertion-ordered dictionaries as association lists with distinct keys.
- `graphs.dfy` defines paths, cycles and rankings of a dependency map.
- `text.dfy` holds the string built-ins the code uses.

Representation:

- Dates are day numbers, with day 0 a Monday and `weekday(d) = d % 7`.
- Durations are integer tenths of a day, so 2.4, 6.0 and 12.0 days are 24, 60 and 120.
- The loops of the source are methods with loop invariants. Each method is proved equal to a
  specification function, and lemmas state what that function guarantees.

The model follows the code where it differs from the behaviour the project's design describes:

- The day walk counts only the days after the start. A five-day task begun on a Monday therefore
  ends on the following Monday, not on Friday (`Calendar.FiveDaysFromMonday`).
- The first pass starts each task on the calendar day after the previous end, even when that is a
  Saturday (`Timeline.SaturdayStart`).
- The second pass visits tasks in list order, not in dependency order. A dependent can therefore be
  placed after a dependency's end that later moves (`Reschedule.StaleDependencyEnd`).
- A task is a setup task when its lower-cased name contains "setup" or "initial", whatever its
  category (`Fallback.PhaseOf`).
- A kept suggestion is used verbatim: unknown ids, its own groups and its own path
  (`DependencyAgent.Resolve`).
- A task without a `category` (or, for the formatter, without a `complexity`) raises KeyError out
  of the pipeline rather than falling back. The agents that index these keys require them (see
  "Left out").
- The layering has a no-progress branch that puts all remaining tasks into one last group
  (`Layering.ForcedLayer`).

## Model

| member | source | states |
|---|---|---|
| Dicts.Put | backend/aws-deployment/app/agents/dependency_agent.py:185 | `d[k] = v` on an insertion-ordered dictionary: an existing key keeps its place and gets the new value, a new key is appended; every other key keeps its value |
| Text.Strip | backend/app/agents/planner_agent.py:31 | `str.strip()`: the result has no white space at either end and is the slice of the input between its first and last non-space character (empty for an all-space input) |
| Text.Lower | backend/aws-deployment/app/agents/dependency_agent.py:153 | `str.lower()`: same length, ASCII upper-case letters lowered, everything else unchanged |
| Text.Contains | backend/aws-deployment/app/agents/dependency_agent.py:153 | `sub in s` holds exactly when `sub` occurs at some position of `s` |
| Text.ReplaceChar | backend/aws-deployment/app/agents/formatter_agent.py:60 | `s.replace(a, b)` for characters: same length, every `a` becomes `b`, every other character is kept |
| Text.Prefix | backend/app/agents/planner_agent.py:38 | the slice `xs[:n]`: min(n, len) items, each the item at the same position of the input |
| Text.Title | backend/aws-deployment/app/agents/formatter_agent.py:57 | `str.title()` on ASCII: a letter following a letter is lowered, any other letter raised, same length |
| Text.NatToStringInjective | backend/aws-deployment/app/agents/formatter_agent.py:202 | different counters print as different decimal strings |
| Calendar.Weekday | backend/aws-deployment/app/agents/timeline_agent.py:36 | `weekday()` of a day number is in 0..6 (day 0 is a Monday) |
| Calendar.NextBusinessDay | backend/aws-deployment/app/agents/dependency_agent.py:283-287 | the first Monday-to-Friday day strictly after d: at most three days later, and no business day in between |
| Calendar.AddBusinessDays | backend/aws-deployment/app/agents/timeline_agent.py:32-37 | the end of an n-business-day walk is not before the start, and for n > 0 it is a business day strictly after the start |
| Calendar.CeilTenths | backend/aws-deployment/app/agents/timeline_agent.py:34 | `while days_added < duration` runs ceil(duration) times: n is the least number with n * 10 >= tenths (0 for a non-positive duration) |
| Calendar.AddBusinessDaysCount | backend/aws-deployment/app/agents/timeline_agent.py:32-37 | exactly n business days lie in (start, AddBusinessDays(start, n)] |
| Calendar.AddBusinessDaysFirst | backend/aws-deployment/app/agents/timeline_agent.py:32-37 | before AddBusinessDays(start, n) fewer than n business days have elapsed: it is the first day on which n have |
| Calendar.AddBusinessDaysMonotone | backend/aws-deployment/app/agents/timeline_agent.py:32-37 | walking more business days never ends earlier |
| Calendar.WalkBusinessDays | backend/aws-deployment/app/agents/timeline_agent.py:32-37 | the day-by-day loop ends on AddBusinessDays(start, CeilTenths(duration)) |
| Calendar.RollToBusinessDay | backend/aws-deployment/app/agents/dependency_agent.py:286-287 | `while d.weekday() >= 5: d += 1` gives the first business day on or after d |
| Calendar.FiveDaysFromMonday | backend/aws-deployment/app/agents/timeline_agent.py:32-37 | a task of duration 5.0 begun on Monday (day 0) ends on the following Monday (day 7), since only days after the start are counted |
| Calendar.TwoDaysFromFriday | backend/aws-deployment/app/agents/dependency_agent.py:290-297 | a two-day walk from a Friday ends on the following Tuesday |
| Calendar.AfterFridayIsMonday | backend/aws-deployment/app/agents/dependency_agent.py:283-287 | the day after a Friday end, rolled off the weekend, is the following Monday |
| Graphs.DepsIsGet | backend/aws-deployment/app/agents/dependency_agent.py:125 | the dependency list of an id is `dependencies.get(id, [])` |
| Graphs.RankedAcyclic | backend/aws-deployment/app/agents/dependency_agent.py:111-136 | a graph whose edges all lower a rank has no cycle |
| Graphs.StuckSetHasCycle | backend/aws-deployment/app/agents/dependency_agent.py:204-206 | a non-empty set in which every node depends on a node of the set contains a cycle |
| Plan.NewTask | backend/app/agents/planner_agent.py:43-65 | a planned task has exactly id, name, description, category and complexity; duration, dates and dependencies are absent |
| Plan.Ids | backend/aws-deployment/app/agents/dependency_agent.py:218 | `[t['id'] for t in tasks]`: one id per task, in task order |
| Plan.PlanState.constructor | backend/app/services/orchestrator.py:16-23 | the initial state: the description, no tasks, total duration 0, an empty map, no groups, no path, and no project dates or outputs |
| Response.Cleaned | backend/app/agents/planner_agent.py:31-37 | the text handed to `json.loads` never has white space at either end |
| Response.CleanResponse | backend/aws-deployment/app/agents/dependency_agent.py:70-77 | strip, cut a leading "```json", cut a trailing "```", strip again, one reassignment per step; the result is Cleaned(raw) |
| Response.FencedReply | backend/app/agents/planner_agent.py:31-37 | a reply fenced by "```json" and "```", with any white space around, yields its stripped body |
| Response.BareReply | backend/app/agents/planner_agent.py:31-37 | a reply without fences yields itself without the surrounding white space |
| Response.OpenFenceOnly | backend/app/agents/planner_agent.py:32-35 | a reply with only the opening fence keeps the body after it |
| Planner.FallbackTasks | backend/app/agents/planner_agent.py:43-65 | the fallback list has three tasks, each with a category |
| Planner.Process | backend/app/agents/planner_agent.py:27-65 | only `tasks` is written, and it becomes PlannedTasks: the cleaned and parsed reply cut to eight tasks, or the fallback list when the call or the parse fails |
| Planner.KeepsFirstEight | backend/app/agents/planner_agent.py:37-38 | a parsed list is kept in its order, cut to its first min(8, n) tasks |
| Planner.FailureGivesFallback | backend/app/agents/planner_agent.py:40-65 | every failure gives task_1..task_3, the first two in development, the last in testing, all of medium complexity |
| Planner.FallbackTasksChain | backend/app/agents/planner_agent.py:43-65 | the fallback map of the fallback tasks is the chain task_1 -> [], task_2 -> [task_1], task_3 -> [task_2], "Project Setup" being a setup task by its name |
| Planner.ThreePhaseChain | backend/aws-deployment/app/agents/dependency_agent.py:165-185 | any three distinct tasks of the setup, development and testing phases, in that order, get the chain map |
| Fallback.SortIntoPhases | backend/aws-deployment/app/agents/dependency_agent.py:149-162 | the first loop files every task id in the list of its phase, in task order; the name decides setup before the category does |
| Fallback.PhaseIdsSound | backend/aws-deployment/app/agents/dependency_agent.py:149-162 | every id in a phase list is the id of a task of that phase |
| Fallback.PhaseIdsComplete | backend/aws-deployment/app/agents/dependency_agent.py:149-162 | the id of every task of a phase is in that phase's list |
| Fallback.CreateSafeDependencies | backend/aws-deployment/app/agents/dependency_agent.py:138-187 | the method's map is SafeDependencies(tasks): the second loop's fold of the phase rules over the tasks |
| Fallback.AssignFind | backend/aws-deployment/app/agents/dependency_agent.py:165-185 | the fold maps exactly the assigned ids, each to its rule |
| Fallback.SafeDeps | backend/aws-deployment/app/agents/dependency_agent.py:165-185 | `dependencies.get(x, [])` on the fallback map is the phase rule for a task id and [] for any other id; exactly the task ids are keys |
| Fallback.SafeDependenciesKeys | backend/aws-deployment/app/agents/dependency_agent.py:165-187 | one entry per task id, each task id mapped to its rule, and no more entries than tasks |
| Fallback.RuleTargets | backend/aws-deployment/app/agents/dependency_agent.py:169-183 | a rule only names ids of the setup, development and testing lists |
| Fallback.SafeDependenciesClosed | backend/aws-deployment/app/agents/dependency_agent.py:165-187 | every listed dependency is a task id |
| Fallback.RuleLowersRank | backend/aws-deployment/app/agents/dependency_agent.py:169-183 | every rule points to a strictly lower phase |
| Fallback.SafeDependenciesRanked | backend/aws-deployment/app/agents/dependency_agent.py:138-187 | the fallback map is ranked by phase and so has no cycle |
| CycleCheck.Enter | backend/aws-deployment/app/agents/dependency_agent.py:122-123 | entering an unvisited node along an edge from the top of the stack keeps the search invariant |
| CycleCheck.Leave | backend/aws-deployment/app/agents/dependency_agent.py:129-130 | leaving a node whose dependencies are all finished keeps the invariant, the node finishing after them |
| CycleCheck.StackCycle | backend/aws-deployment/app/agents/dependency_agent.py:117-118 | meeting a node of the recursion stack from the top of the stack closes a cycle |
| CycleCheck.AllFinishedRanked | backend/aws-deployment/app/agents/dependency_agent.py:132-136 | once every key is finished without a hit, the finishing order ranks the graph, so it has no cycle |
| CycleCheck.CycleSearch.constructor | backend/aws-deployment/app/agents/dependency_agent.py:113-114 | the search starts with `visited` and `rec_stack` empty |
| CycleCheck.CycleSearch.Visit | backend/aws-deployment/app/agents/dependency_agent.py:116-130 | `visit(node)`: True only when the graph has a cycle; on False the node is finished, the stack is as before and nothing visited is forgotten |
| CycleCheck.CycleSearch.VisitDeps | backend/aws-deployment/app/agents/dependency_agent.py:125-127 | the loop over `dependencies.get(node, [])`: True only on a cycle, otherwise every dependency of the node is finished |
| CycleCheck.HasCycles | backend/aws-deployment/app/agents/dependency_agent.py:111-136 | `_has_cycles` returns True exactly when some path of the map leads from a node back to itself |
| Layering.FirstLayer | backend/aws-deployment/app/agents/dependency_agent.py:198-206 | the next group is the set of remaining tasks whose dependencies are all completed, or all remaining tasks exactly when none is ready |
| Layering.ListOf | backend/aws-deployment/app/agents/dependency_agent.py:206 | `list(remaining)`: each member of the set once |
| Layering.ReadyTasks | backend/aws-deployment/app/agents/dependency_agent.py:198-202 | the inner loop collects exactly the ready remaining tasks, each once |
| Layering.NextGroup | backend/aws-deployment/app/agents/dependency_agent.py:198-206 | one pass of the outer loop yields the members of the next layer, each once |
| Layering.CreateParallelGroups | backend/aws-deployment/app/agents/dependency_agent.py:189-212 | group k holds exactly the members of layer k, each once |
| Layering.LayersShape | backend/aws-deployment/app/agents/dependency_agent.py:196-210 | the loop ends with at most as many groups as tasks, each a non-empty set of tasks |
| Layering.LayersDisjoint | backend/aws-deployment/app/agents/dependency_agent.py:209-210 | the groups are pairwise disjoint |
| Layering.LayersCover | backend/aws-deployment/app/agents/dependency_agent.py:196-210 | every task is placed in some group |
| Layering.PlacedIsRemaining | backend/aws-deployment/app/agents/dependency_agent.py:193-210 | the placed tasks are exactly the task ids |
| Layering.LayersRespectDependencies | backend/aws-deployment/app/agents/dependency_agent.py:199-202 | outside the no-progress branch every dependency of a member of group k is in an earlier group (or completed before) |
| Layering.ForcedLayer | backend/aws-deployment/app/agents/dependency_agent.py:204-206 | the no-progress group is the last one, and it arises only from a cycle or a dependency that is not a remaining or completed task |
| Layering.Stuck | backend/aws-deployment/app/agents/dependency_agent.py:204-206 | when no remaining task is ready, there is a cycle or a dependency outside the tasks |
| Layering.NeverForced | backend/aws-deployment/app/agents/dependency_agent.py:204-206 | on an acyclic map whose dependencies are all task ids the no-progress branch never fires |
| CriticalPath.DepsDepthIsMax | backend/aws-deployment/app/agents/dependency_agent.py:231 | `max(get_depth(dep) for dep in deps)`: no dependency is deeper, and one is exactly as deep |
| CriticalPath.PathNoLongerThanDepth | backend/aws-deployment/app/agents/dependency_agent.py:223-233 | the depth of a task bounds the number of edges of every path from it: depth is the longest-chain length |
| CriticalPath.MemoPut | backend/aws-deployment/app/agents/dependency_agent.py:229-231 | recording the depth of an id whose dependencies are recorded keeps the memo correct |
| CriticalPath.DepthMemo.constructor | backend/aws-deployment/app/agents/dependency_agent.py:221 | the memo starts empty |
| CriticalPath.DepthMemo.GetDepth | backend/aws-deployment/app/agents/dependency_agent.py:223-233 | `get_depth(task_id)` returns the depth of the id (0 without dependencies, else one more than its deepest dependency) and records it |
| CriticalPath.DepthMemo.DepsMax | backend/aws-deployment/app/agents/dependency_agent.py:231 | the maximum over the dependencies, evaluated one dependency at a time, each of them recorded |
| CriticalPath.DepthMemo.ComputeAll | backend/aws-deployment/app/agents/dependency_agent.py:236-237 | after the loop every task id has its depth recorded |
| CriticalPath.ArgMax | backend/aws-deployment/app/agents/dependency_agent.py:244 | Python's `max` with a key picks the first greatest element |
| CriticalPath.MemoValues | backend/aws-deployment/app/agents/dependency_agent.py:252 | `depths.get(d, 0)` for each dependency |
| CriticalPath.FindCriticalPath | backend/aws-deployment/app/agents/dependency_agent.py:214-256 | the path is empty exactly for no tasks and each element is a dependency of the next; when no id is empty it starts at a task without dependencies, ends at a deepest task and has depth + 1 elements |
| CriticalPath.WalkFromDeepest | backend/aws-deployment/app/agents/dependency_agent.py:239-254 | the walk starts from the first deepest memoised id: when that id is not empty the path ends there, starts at an id without dependencies and has depth + 1 elements |
| CriticalPath.WalkFrom | backend/aws-deployment/app/agents/dependency_agent.py:246-254 | the `while current:` loop prepends ids along first deepest dependencies: a chain that, from a non-empty start, ends at the start, begins at an id without dependencies and has depth(start) + 1 elements |
| CriticalPath.DeepestTask | backend/aws-deployment/app/agents/dependency_agent.py:244 | the first greatest memoised depth belongs to an id at least as deep as every task |
| CriticalPath.NextDeepest | backend/aws-deployment/app/agents/dependency_agent.py:250-252 | the first deepest dependency of a memoised id is exactly one level less deep |
| Reschedule.TaskMapLast | backend/aws-deployment/app/agents/dependency_agent.py:264 | `{t['id']: t for t in tasks}` sends each id to the last task with that id |
| Reschedule.TaskMapKeys | backend/aws-deployment/app/agents/dependency_agent.py:264 | the task map holds exactly the task ids |
| Reschedule.LatestEndIsMax | backend/aws-deployment/app/agents/dependency_agent.py:272-279 | `latest_end` is None exactly when no dependency is a known task, and otherwise the greatest end of the known ones |
| Reschedule.LatestDependencyEnd | backend/aws-deployment/app/agents/dependency_agent.py:272-279 | the inner loop computes LatestEnd over the dependencies found in the task map |
| Reschedule.Moved | backend/aws-deployment/app/agents/dependency_agent.py:283-300 | a moved task keeps every key but its dates, starts on the first business day after the latest end, and ends after ceil(duration) business days (duration 5 when absent) |
| Reschedule.Rescheduled | backend/aws-deployment/app/agents/dependency_agent.py:267-300 | the pass keeps the length and the ids of the list and leaves every task dated |
| Reschedule.VisitedFrame | backend/aws-deployment/app/agents/dependency_agent.py:267 | task j is changed only by iteration j of the outer loop |
| Reschedule.FinalTask | backend/aws-deployment/app/agents/dependency_agent.py:267-300 | task i ends up moved after the ends its known dependencies have at iteration i, or keeps its dates when none is known |
| Reschedule.UnknownDependenciesKeepDates | backend/aws-deployment/app/agents/dependency_agent.py:275-281 | a task with no dependency among the task ids keeps its dates |
| Reschedule.MovedTask | backend/aws-deployment/app/agents/dependency_agent.py:281-300 | a task with a known dependency starts on a business day after that dependency's end at that point and spans exactly ceil(duration) business days |
| Reschedule.DependencyListedEarlier | backend/aws-deployment/app/agents/dependency_agent.py:267-300 | a dependency listed before its dependent (and last with its id) ends before the dependent starts |
| Reschedule.StaleDependencyEnd | backend/aws-deployment/app/agents/dependency_agent.py:267 | in list order a dependent can read a dependency's end before that dependency is moved: "a" starts on day 2 although "b" ends on day 18 |
| Reschedule.AllDates | backend/aws-deployment/app/agents/dependency_agent.py:304-307 | `all_dates` holds the start and then the end of every task, in list order |
| Reschedule.SeqMin | backend/aws-deployment/app/agents/dependency_agent.py:309 | `min(xs)` is an element no greater than any |
| Reschedule.SeqMax | backend/aws-deployment/app/agents/dependency_agent.py:310 | `max(xs)` is an element no smaller than any |
| Reschedule.DateSpan | backend/aws-deployment/app/agents/dependency_agent.py:303-310 | the span loop yields min and max of all dates, start <= end |
| Reschedule.RescheduleTasks | backend/aws-deployment/app/agents/dependency_agent.py:267-300 | the outer loop, updating the list in place, yields Rescheduled(tasks, dependencies) |
| Reschedule.AdjustTimeline | backend/aws-deployment/app/agents/dependency_agent.py:258-317 | the tasks become the rescheduled list; for a non-empty list project start and end are the earliest and latest dates and total duration their difference, otherwise they are unchanged |
| DependencyAgent.Linked | backend/aws-deployment/app/agents/dependency_agent.py:96-99 | linking keeps the length and keeps every task dated |
| DependencyAgent.LinkedFields | backend/aws-deployment/app/agents/dependency_agent.py:96-99 | linking writes only `dependencies`, with `dependencies.get(id, [])` |
| DependencyAgent.AttachDependencies | backend/aws-deployment/app/agents/dependency_agent.py:96-99 | the loop writes each task's dependency list: the result is Linked(tasks, dependencies) |
| DependencyAgent.Resolve | backend/aws-deployment/app/agents/dependency_agent.py:66-94 | the kept suggestion (reply obtained, cleaned text parsed, map acyclic) supplies map, groups and path verbatim; otherwise the fallback map, its layers and a critical path along it |
| DependencyAgent.FallbackPlan | backend/aws-deployment/app/agents/dependency_agent.py:89-94 | the fallback map, groups equal to its layers, and a path that is empty only for no tasks, follows its edges and, without empty ids, is a critical path |
| DependencyAgent.Record | backend/aws-deployment/app/agents/dependency_agent.py:104-107 | the map, the groups and the path are written into the state; nothing else changes |
| DependencyAgent.Process | backend/aws-deployment/app/agents/dependency_agent.py:66-109 | the state's map, groups and path are the chosen ones; the tasks are linked to the map and rescheduled; the project span is recorded for a non-empty list |
| DependencyAgent.RescheduledKeepsDependencies | backend/aws-deployment/app/agents/dependency_agent.py:299-300 | rescheduling writes dates only: ids and dependency lists stay |
| DependencyAgent.RecordedDependencies | backend/aws-deployment/app/agents/dependency_agent.py:96-107 | after `process` every task records `dependencies.get(id, [])` for the map left in the state |
| DependencyAgent.FallbackRecordsRule | backend/aws-deployment/app/agents/dependency_agent.py:92-99 | on the fallback path every task records the dependency list its phase rule gives it |
| DependencyAgent.FallbackGroupsOrdered | backend/aws-deployment/app/agents/dependency_agent.py:92-93 | on the fallback path no group is forced and every dependency of a member of group k is in an earlier group |
| Timeline.LayOut | backend/aws-deployment/app/agents/timeline_agent.py:19-41 | the loop yields Laid(tasks, today) and the sum of the buffered durations |
| Timeline.Process | backend/aws-deployment/app/agents/timeline_agent.py:14-44 | only the tasks and `total_duration` change: the tasks are laid out from `today` and the total is the truncated sum of durations |
| Timeline.LaidAt | backend/aws-deployment/app/agents/timeline_agent.py:27-40 | task i is laid out from the day after the end of task i - 1, and the first from today |
| Timeline.LaidFields | backend/aws-deployment/app/agents/timeline_agent.py:28-39 | only duration, start and end are written, and the duration is the buffered one |
| Timeline.FirstStartsToday | backend/aws-deployment/app/agents/timeline_agent.py:16-29 | the first task starts on the current date |
| Timeline.StartsDayAfterPrevious | backend/aws-deployment/app/agents/timeline_agent.py:40 | each later task starts one calendar day after the previous end, weekend or not |
| Timeline.EndDate | backend/aws-deployment/app/agents/timeline_agent.py:31-39 | a task ends on a business day after its start, the first day by which ceil(duration) business days have elapsed |
| Timeline.NoOverlap | backend/aws-deployment/app/agents/timeline_agent.py:19-40 | every task starts after each earlier task ends |
| Timeline.DurationTable | backend/aws-deployment/app/agents/timeline_agent.py:8-25 | buffered durations: 2.4 days for low, 12 for high, 6 for medium, missing or any other value |
| Timeline.TotalIsSumOfDurations | backend/aws-deployment/app/agents/timeline_agent.py:41 | `total_days` is the sum of the durations written on the tasks |
| Timeline.SaturdayStart | backend/aws-deployment/app/agents/timeline_agent.py:40 | a low task begun on a Tuesday ends on Friday, so the next task starts on a Saturday |
| Formatter.Count | backend/aws-deployment/app/agents/formatter_agent.py:271-274 | the counting loop yields Tally(tasks, key) |
| Formatter.CountByCategory | backend/aws-deployment/app/agents/formatter_agent.py:269-275 | `_count_by_category` counts by category, 'other' when absent |
| Formatter.CountByComplexity | backend/aws-deployment/app/agents/formatter_agent.py:277-283 | `_count_by_complexity` counts by complexity, 'medium' when absent |
| Formatter.TallyCounts | backend/aws-deployment/app/agents/formatter_agent.py:269-275 | a key is counted exactly when some task has it, with the number of such tasks |
| Formatter.TallyKeys | backend/aws-deployment/app/agents/formatter_agent.py:269-275 | the keys of the counts appear in order of first occurrence |
| Formatter.TallySum | backend/aws-deployment/app/agents/formatter_agent.py:269-275 | the counts add up to the number of tasks |
| Formatter.GroupBySection | backend/aws-deployment/app/agents/formatter_agent.py:48-53 | the grouping loop yields Group(tasks), a list per category ('Other' when absent) |
| Formatter.GroupMembers | backend/aws-deployment/app/agents/formatter_agent.py:48-53 | a category has a section exactly when some task has it, and its section lists exactly its tasks in list order |
| Formatter.GroupKeys | backend/aws-deployment/app/agents/formatter_agent.py:48-53 | sections appear in order of each category's first occurrence |
| Formatter.GroupSizes | backend/aws-deployment/app/agents/formatter_agent.py:48-53 | the sections hold as many entries as there are tasks |
| Formatter.SectionsPartition | backend/aws-deployment/app/agents/formatter_agent.py:48-59 | every task appears in the section of its category, each section lists only its own category's tasks, and the entries number |tasks|: one section per task |
| Formatter.GanttName | backend/aws-deployment/app/agents/formatter_agent.py:60 | the Gantt name is the first 30 characters of the name with ':' replaced by a space, and holds no colon |
| Formatter.WholeDays | backend/aws-deployment/app/agents/formatter_agent.py:63 | `int(task.get('duration', 1))`: the duration truncated toward zero to whole days, 1 when absent |
| Formatter.GenerateGanttChart | backend/aws-deployment/app/agents/formatter_agent.py:37-75 | the text built by `+=` is GanttText: header, one section per category group, closing fence |
| Formatter.AppendLines | backend/aws-deployment/app/agents/formatter_agent.py:59-72 | the inner loop appends one line per task of the section |
| Formatter.TaskLineIsOneLine | backend/aws-deployment/app/agents/formatter_agent.py:60-72 | when the name, id, dependency ids and start-date text hold no line break, a task's Gantt line holds exactly one line break, at its end |
| Formatter.LinesArePerTask | backend/aws-deployment/app/agents/formatter_agent.py:59-72 | under the same condition the lines of n tasks hold exactly n line breaks and end with one: one closed line per task |
| Formatter.GanttSections | backend/aws-deployment/app/agents/formatter_agent.py:56-57 | the chart body equals the reference reading: categories by first occurrence, each with exactly its tasks |
| Formatter.NodesApart | backend/aws-deployment/app/agents/formatter_agent.py:192-193 | nodes of different tasks sit in different cells of the four-wide grid |
| Formatter.EdgeFields | backend/aws-deployment/app/agents/formatter_agent.py:201-207 | edge k has id `edge_k` and label "depends on" |
| Formatter.EdgeIdInjective | backend/aws-deployment/app/agents/formatter_agent.py:202 | different counters give different edge ids |
| Formatter.EdgesSound | backend/aws-deployment/app/agents/formatter_agent.py:199-207 | every edge runs from a listed dependency to the task that lists it |
| Formatter.EdgesComplete | backend/aws-deployment/app/agents/formatter_agent.py:199-207 | every listed dependency has an edge from it to its task |
| Formatter.EdgeList | backend/aws-deployment/app/agents/formatter_agent.py:197-207 | there are as many edges as listed dependencies |
| Formatter.GenerateDependencyGraph | backend/aws-deployment/app/agents/formatter_agent.py:178-213 | the returned view is GraphViewOf: node i of task i at ((i mod 4) * 150, (i div 4) * 100), then the edges in map order, layout "hierarchical" |
| Formatter.CreateEdges | backend/aws-deployment/app/agents/formatter_agent.py:197-207 | the two edge loops with a running counter yield EdgeList(dependencies, 0) |
| Formatter.AppendEdges | backend/aws-deployment/app/agents/formatter_agent.py:200-207 | the inner loop appends one edge per dependency and advances the counter to the number of edges |
| Formatter.JsonExportOf | backend/aws-deployment/app/agents/formatter_agent.py:77-99 | the export carries the tasks; statistics: total_tasks is their number, both count tables sum to it, parallelization_factor is the number of groups |
| Formatter.Formats | backend/aws-deployment/app/agents/formatter_agent.py:20-27 | the formats dictionary has exactly the six keys in order |
| Formatter.Process | backend/aws-deployment/app/agents/formatter_agent.py:12-35 | only `outputs` changes: it is created empty when absent and updated with the six formats |
| Formatter.FormatKeysDistinct | backend/aws-deployment/app/agents/formatter_agent.py:20-27 | the six format keys are distinct |
| Formatter.FormatsMerged | backend/aws-deployment/app/agents/formatter_agent.py:30-33 | after the update each format key holds its format and every other key keeps its value |
| Formatter.MergedFind | backend/aws-deployment/app/agents/formatter_agent.py:33 | `dict.update`: keys of the update take its values, the others keep theirs |
| Formatter.MergedKeepsOrder | backend/aws-deployment/app/agents/formatter_agent.py:33 | keys present before the update keep their places at the front |
| Orchestrator.CriticalPathPart | backend/app/services/orchestrator.py:74-76 | the Critical Path line is present exactly when the path is non-empty |
| Orchestrator.ParallelPart | backend/app/services/orchestrator.py:79-84 | the parallel section is present exactly when there is more than one group |
| Orchestrator.DependsLine | backend/app/services/orchestrator.py:96-97 | the Depends on line is present exactly when the task's dependency list is non-empty |
| Orchestrator.TaskSection | backend/app/services/orchestrator.py:89-99 | a task section starts with the `### name (id)` heading and continues past it |
| Orchestrator.PhaseLineAt | backend/app/services/orchestrator.py:82-83 | the line of phase i + 1 follows the lines of the phases before it |
| Orchestrator.TaskSectionAt | backend/app/services/orchestrator.py:88-89 | the heading of task i follows the sections of the tasks before it, and each task adds text: one section per task in list order |
| Orchestrator.AppendPhases | backend/app/services/orchestrator.py:82-83 | the phase loop appends PhaseLines(groups) |
| Orchestrator.AppendTaskSections | backend/app/services/orchestrator.py:88-99 | the task loop appends TaskSections(tasks) |
| Orchestrator.GenerateMarkdown | backend/app/services/orchestrator.py:66-101 | the text built by `+=` is MarkdownText of the state: preamble, critical path part, parallel part, task sections |
| Orchestrator.CountCategories | backend/app/services/orchestrator.py:103-108 | `_count_categories` yields the counts by category ('other' when absent): they sum to the number of tasks and count each category exactly as often as it occurs |
| Orchestrator.SummaryOf | backend/app/services/orchestrator.py:50-57 | total_tasks is the number of tasks and the category counts sum to it; can_parallel holds exactly for more than one group; critical_path_length is the path length; dependencies_count is the number of listed dependencies |
| Orchestrator.FinalOutputs | backend/app/services/orchestrator.py:48-58 | the final outputs have exactly the keys markdown and summary, holding the given values |
| Orchestrator.EnsureMarkdown | backend/app/services/orchestrator.py:39-44 | `outputs` becomes the old dictionary, or {} when absent, kept as it is when it has a markdown key and otherwise extended by markdown = MarkdownText(state); no other field changes |
| Orchestrator.SetOutputs | backend/app/services/orchestrator.py:48 | the assignment to `state['outputs']`; nothing else changes |
| Orchestrator.Finalize | backend/app/services/orchestrator.py:39-58 | `outputs` is replaced by exactly {markdown, summary} of the final state, the formatter's keys discarded; no other field changes |

## Left out

- The LLM calls and `json.loads`. They are the parameters `reply` and `parse`:
  - `reply` is None when the call raises.
  - `parse` returns None when something inside the agent's `try` raises: `json.loads`, the slice
    `tasks[:8]`, or a `.get` on a value that is not a dictionary.
  - Field extraction with `.get(..., default)` is part of what `parse` returns.
- Replies that Python keeps although they are not of the shape the agents expect. `parse` can only
  return a task list or a dependency suggestion, so the model cannot represent these replies:
  - a planner reply that is a JSON string passes `tasks[:8]` (planner_agent.py:38) and is kept,
    and the timeline then raises on it;
  - a planner list whose items lack `id` or `name` is kept. The task record always has both keys,
    so the KeyError the dependency agent then raises (dependency_agent.py:16-17) is not modelled;
  - a dependency map whose values are strings rather than lists is kept. `_has_cycles` walks the
    string's characters, and each task records the string.
- DependencyAgent.Process, Fallback.Lists and Fallback.CreateSafeDependencies require every task to
  have a `category`. The source indexes `task["category"]` directly at dependency_agent.py:18 and
  :150, and line 18 is outside the `try`. A planner reply such as
  `[{"id": "t1", "name": "A", "description": "d"}]` is kept by planner_agent.py:38, and the
  KeyError then leaves `Orchestrator.run`. This is at odds with the design's promise that the core
  never raises to its caller. The model states nothing about that input.
- Formatter.GenerateDependencyGraph and Formatter.Process require every task to have a `category`
  and a `complexity`. The source indexes both directly at formatter_agent.py:189-190, outside any
  `try`, so a kept planner task with a category but no complexity makes the formatter raise
  KeyError out of `Orchestrator.run`. The model states nothing about that input.
- `datetime.now()`, `strftime` and `strptime`:
  - The current day is the parameter `today`.
  - Dates stay day numbers in the state.
  - ISO date text in the Gantt chart and the Markdown comes from the parameter `isoDate`.
  - `created_at` of the JSON export is the parameter `createdAt`.
- Floating point. Durations are exact tenths, and `total_days` is summed exactly. Python's float
  sum can land just below an integer and truncate one lower; the model does not capture that.
- The order in which Python iterates over the set `remaining`. Group membership is stated as sets,
  and each group lists its members once, in an order the model leaves open.
- `_generate_csv_export`, `_generate_timeline_visual` and `_generate_executive_summary`. Their texts
  are parameters of `Formatter.Process`, which stores them under their keys.
- The non-statistics parts of the JSON export are carried over as they are, dates as day numbers.
- The sequencing of the agents in `Orchestrator.run`, its `async` plumbing and every `print`.
- The Markdown depends on the keys `category`, `duration`, `start_date` and `end_date`, which the
  source indexes directly. `Orchestrator.GenerateMarkdown` and `Orchestrator.Finalize` therefore
  require every task to have them. `Orchestrator.TaskSection` is total: it uses defaults that these
  callers never reach.
- CriticalPath.FindCriticalPath: the depth recursion is proved only for maps that come with a
  ranking witness. That is the fallback map, the only one the source passes in. For an id that is
  the empty string the result is only a chain, because Python's `while current:` stops on it.
- Formatter.EdgesSound, Formatter.EdgesComplete and Formatter.EdgeList together state that there is
  one edge per listed (task, dependency) pair. Repeated entries in a dependency list give repeated
  edges, as in the source.
- Calendar and Text model Python's `weekday`, `strip`, `lower`, `title`, `replace` and slicing on
  ASCII text only. Unicode case rules are not modelled.
