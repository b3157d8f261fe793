/**
 * The end of `Orchestrator.run`: the Markdown plan, the category counts and the summary
 * that replace everything the agents put into `outputs`.  The ISO rendering of a day number
 * is the parameter `isoDate`.
 */
module Orchestrator {
  import opened Wrappers
  import opened Dicts
  import opened Graphs
  import opened Plan
  import opened Text
  import opened Formatter

  /** Every task has a `duration` key. */
  predicate Timed(tasks: seq<Task>) {
    forall i :: 0 <= i < |tasks| ==> tasks[i].duration.Some?
  }

  /** The keys `_generate_markdown` indexes directly on every task. */
  predicate Documented(tasks: seq<Task>) {
    Categorised(tasks) && Dated(tasks) && Timed(tasks)
  }

  /** `state.get('project_start', 'TBD')` and its `project_end` twin. */
  function DateText(day: Option<int>, isoDate: int -> string): string {
    match day
    case None => "TBD"
    case Some(d) => isoDate(d)
  }

  /** The title block: description, total duration and project span. */
  function Preamble(description: string, totalDuration: int, projectStart: Option<int>, projectEnd: Option<int>,
                    isoDate: int -> string): string {
    "# Project Plan\n\n" + "**Description:** " + description + "\n"
    + "**Total Duration:** " + IntToString(totalDuration) + " days\n"
    + "**Project Start:** " + DateText(projectStart, isoDate) + "\n"
    + "**Project End:** " + DateText(projectEnd, isoDate) + "\n\n"
  }

  /** The critical-path line: present exactly when the path is not empty, its ids joined by " → ". */
  function CriticalPathPart(path: seq<string>): (r: string)
    ensures r == [] <==> path == []
  {
    if path == [] then [] else "**Critical Path:** " + Join(path, " \U{2192} ") + "\n\n"
  }

  /** `f"**Phase {i+1}:** {', '.join(group)}\n"` for the group numbered n. */
  function PhaseLine(n: nat, group: seq<string>): string {
    "**Phase " + NatToString(n) + ":** " + Join(group, ", ") + "\n"
  }

  /** The phase lines of the groups, numbered from 1 in group order. */
  function PhaseLines(groups: seq<seq<string>>): string {
    if groups == [] then []
    else PhaseLines(groups[..|groups| - 1]) + PhaseLine(|groups|, groups[|groups| - 1])
  }

  /** The parallel-execution section: present exactly when there is more than one group. */
  function ParallelPart(groups: seq<seq<string>>): (r: string)
    ensures r == [] <==> |groups| <= 1
  {
    if |groups| > 1 then "## Parallel Execution Opportunities\n\n" + PhaseLines(groups) + "\n" else []
  }

  /** The heading of a task's section. */
  function Heading(t: Task): string {
    "### " + t.name + " (" + t.id + ")\n"
  }

  /** The "Depends on" line: present exactly when the task lists dependencies. */
  function DependsLine(t: Task): (r: string)
    ensures r == [] <==> t.dependencies.GetOr([]) == []
  {
    var deps := t.dependencies.GetOr([]);
    if deps != [] then "- **Depends on:** " + Join(deps, ", ") + "\n" else []
  }

  /**
   * The section of one task; the duration is printed as the float of its tenths.  Only tasks
   * with all four keys are rendered (`GenerateMarkdown` requires them); the defaults are never used.
   */
  function TaskSection(t: Task, isoDate: int -> string): (r: string)
    ensures |Heading(t)| < |r| && r[..|Heading(t)|] == Heading(t)
  {
    var details := Details(t, isoDate);
    assert (Heading(t) + details)[..|Heading(t)|] == Heading(t);
    Heading(t) + details
  }

  /** The lines of a task's section below its heading, closed by an empty line. */
  function Details(t: Task, isoDate: int -> string): string {
    "- **Description:** " + t.description + "\n"
    + "- **Category:** " + t.category.GetOr("") + "\n"
    + "- **Duration:** " + TenthsToString(t.duration.GetOr(0)) + " days\n"
    + "- **Dates:** " + isoDate(t.startDate.GetOr(0)) + " to " + isoDate(t.endDate.GetOr(0)) + "\n"
    + DependsLine(t) + "\n"
  }

  /** The task sections in list order. */
  function TaskSections(tasks: seq<Task>, isoDate: int -> string): string {
    Concat(tasks, t => TaskSection(t, isoDate))
  }

  /** The texts of the items, one after another. */
  function Concat<T>(xs: seq<T>, text: T -> string): string {
    if xs == [] then [] else Concat(xs[..|xs| - 1], text) + text(xs[|xs| - 1])
  }

  lemma ConcatSnoc<T>(xs: seq<T>, text: T -> string, i: nat)
    requires i < |xs|
    ensures Concat(xs[..i + 1], text) == Concat(xs[..i], text) + text(xs[i])
  {
    assert xs[..i + 1][..i] == xs[..i];
  }

  /** The text of a prefix is a prefix of the text. */
  lemma {:induction false} ConcatPrefix<T>(xs: seq<T>, text: T -> string, n: nat)
    requires n <= |xs|
    ensures Concat(xs[..n], text) <= Concat(xs, text)
  {
    if n < |xs| {
      var init := xs[..|xs| - 1];
      ConcatPrefix(init, text, n);
      assert init[..n] == xs[..n];
    } else {
      assert xs[..n] == xs;
    }
  }

  /** The text `_generate_markdown(state)` returns. */
  function MarkdownText(description: string, totalDuration: int, projectStart: Option<int>, projectEnd: Option<int>,
                        criticalPath: seq<string>, parallelGroups: seq<seq<string>>, tasks: seq<Task>,
                        isoDate: int -> string): string
  {
    Preamble(description, totalDuration, projectStart, projectEnd, isoDate)
    + CriticalPathPart(criticalPath) + ParallelPart(parallelGroups)
    + "## Tasks\n\n" + TaskSections(tasks, isoDate)
  }

  /** `_generate_markdown(state)`, built by appending. */
  method GenerateMarkdown(state: PlanState, isoDate: int -> string) returns (md: string)
    requires Documented(state.tasks)
    ensures md == MarkdownText(state.description, state.totalDuration, state.projectStart, state.projectEnd,
                               state.criticalPath, state.parallelGroups, state.tasks, isoDate)
  {
    var preamble := Preamble(state.description, state.totalDuration, state.projectStart, state.projectEnd, isoDate);
    md := preamble;
    var criticalPath := state.criticalPath;
    if criticalPath != [] {
      md := md + ("**Critical Path:** " + Join(criticalPath, " \U{2192} ") + "\n\n");
    }
    assert md == preamble + CriticalPathPart(criticalPath);
    var parallelGroups := state.parallelGroups;
    var withPath := md;
    if |parallelGroups| > 1 {
      var phases := AppendPhases("## Parallel Execution Opportunities\n\n", parallelGroups);
      md := md + (phases + "\n");
    }
    assert md == withPath + ParallelPart(parallelGroups);
    md := md + "## Tasks\n\n";
    md := AppendTaskSections(md, state.tasks, isoDate);
  }

  /** The loop over `enumerate(parallel_groups)`. */
  method AppendPhases(text: string, groups: seq<seq<string>>) returns (md: string)
    ensures md == text + PhaseLines(groups)
  {
    md := text;
    for i := 0 to |groups|
      invariant md == text + PhaseLines(groups[..i])
    {
      var line := "**Phase " + NatToString(i + 1) + ":** " + Join(groups[i], ", ") + "\n";
      PhaseLinesSnoc(groups, i);
      Associative(text, PhaseLines(groups[..i]), line);
      md := md + line;
    }
    assert groups[..|groups|] == groups;
  }

  lemma PhaseLinesSnoc(groups: seq<seq<string>>, i: nat)
    requires i < |groups|
    ensures PhaseLines(groups[..i + 1]) == PhaseLines(groups[..i]) + PhaseLine(i + 1, groups[i])
  {
    assert groups[..i + 1][..i] == groups[..i];
  }

  /** The loop over `state['tasks']`. */
  method AppendTaskSections(text: string, tasks: seq<Task>, isoDate: int -> string) returns (md: string)
    requires Documented(tasks)
    ensures md == text + TaskSections(tasks, isoDate)
  {
    md := text;
    for i := 0 to |tasks|
      invariant md == text + TaskSections(tasks[..i], isoDate)
    {
      var section := TaskSection(tasks[i], isoDate);
      ConcatSnoc(tasks, t => TaskSection(t, isoDate), i);
      Associative(text, TaskSections(tasks[..i], isoDate), section);
      md := md + section;
    }
    assert tasks[..|tasks|] == tasks;
  }

  /** `_count_categories(tasks)`: the same count as the formatter's, under 'other' when missing. */
  method CountCategories(tasks: seq<Task>) returns (counts: Dict<nat>)
    ensures counts == Tally(tasks, CategoryKey)
    ensures Total(counts) == |tasks|
    ensures forall c :: Find(counts, c) == (if Having(tasks, CategoryKey, c) == [] then None
                                            else Some(|Having(tasks, CategoryKey, c)|))
  {
    counts := Count(tasks, CategoryKey);
    TallySum(tasks, CategoryKey);
    forall c
      ensures Find(counts, c) == (if Having(tasks, CategoryKey, c) == [] then None
                                  else Some(|Having(tasks, CategoryKey, c)|))
    {
      TallyCounts(tasks, CategoryKey, c);
    }
  }

  /** The `summary` dictionary of `run`. */
  function SummaryOf(tasks: seq<Task>, totalDuration: int, parallelGroups: seq<seq<string>>,
                     criticalPath: seq<string>, dependencies: Graph): (r: Summary)
    ensures r.totalTasks == |tasks| && Total(r.categories) == r.totalTasks
    ensures r.canParallel <==> |parallelGroups| > 1
    ensures r.criticalPathLength == |criticalPath|
    ensures r.dependenciesCount == |EdgeList(dependencies, 0)|
  {
    TallySum(tasks, CategoryKey);
    Summary(|tasks|, totalDuration, Tally(tasks, CategoryKey), |parallelGroups| > 1, |criticalPath|,
            DependencyCount(dependencies))
  }

  /**
   * Lines 39-58 of `run`: a Markdown entry is added when missing, then `outputs` is replaced
   * by exactly the Markdown plan and the summary.
   */
  method Finalize(state: PlanState, isoDate: int -> string)
    requires Documented(state.tasks)
    modifies state
    ensures state.description == old(state.description) && state.tasks == old(state.tasks)
    ensures state.totalDuration == old(state.totalDuration) && state.dependencies == old(state.dependencies)
    ensures state.parallelGroups == old(state.parallelGroups) && state.criticalPath == old(state.criticalPath)
    ensures state.projectStart == old(state.projectStart) && state.projectEnd == old(state.projectEnd)
    ensures state.outputs == Some(FinalOutputs(
      MarkdownText(state.description, state.totalDuration, state.projectStart, state.projectEnd,
                   state.criticalPath, state.parallelGroups, state.tasks, isoDate),
      SummaryOf(state.tasks, state.totalDuration, state.parallelGroups, state.criticalPath, state.dependencies)))
  {
    EnsureMarkdown(state, isoDate);
    var md := GenerateMarkdown(state, isoDate);
    var categories := CountCategories(state.tasks);
    var summary := Summary(|state.tasks|, state.totalDuration, categories, |state.parallelGroups| > 1,
                           |state.criticalPath|, DependencyCount(state.dependencies));
    SetOutputs(state, Some(FinalOutputs(md, summary)));
  }

  /** The assignment `state['outputs'] = ...`: no other field changes. */
  method SetOutputs(state: PlanState, outputs: Option<Dict<Output>>)
    modifies state
    ensures state.description == old(state.description) && state.tasks == old(state.tasks)
    ensures state.totalDuration == old(state.totalDuration) && state.dependencies == old(state.dependencies)
    ensures state.parallelGroups == old(state.parallelGroups) && state.criticalPath == old(state.criticalPath)
    ensures state.projectStart == old(state.projectStart) && state.projectEnd == old(state.projectEnd)
    ensures state.outputs == outputs
  {
    state.outputs := outputs;
  }

  /** Lines 39-44 of `run`: an empty `outputs` when there is none, and a Markdown entry when it lacks one. */
  method EnsureMarkdown(state: PlanState, isoDate: int -> string)
    requires Documented(state.tasks)
    modifies state
    ensures state.description == old(state.description) && state.tasks == old(state.tasks)
    ensures state.totalDuration == old(state.totalDuration) && state.dependencies == old(state.dependencies)
    ensures state.parallelGroups == old(state.parallelGroups) && state.criticalPath == old(state.criticalPath)
    ensures state.projectStart == old(state.projectStart) && state.projectEnd == old(state.projectEnd)
    ensures state.outputs == Some(
      var outputs := old(state.outputs).GetOr([]);
      if HasKey(outputs, "markdown") then outputs
      else Put(outputs, "markdown", TextOutput(MarkdownText(state.description, state.totalDuration, state.projectStart,
                                                            state.projectEnd, state.criticalPath, state.parallelGroups,
                                                            state.tasks, isoDate))))
  {
    var outputs := state.outputs.GetOr([]);
    if !HasKey(outputs, "markdown") {
      var md := GenerateMarkdown(state, isoDate);
      outputs := Put(outputs, "markdown", TextOutput(md));
    }
    SetOutputs(state, Some(outputs));
  }

  /** The `outputs` `run` returns: the Markdown plan under "markdown", the summary under "summary", nothing else. */
  function FinalOutputs(markdown: string, summary: Summary): (r: Dict<Output>)
    ensures Keys(r) == ["markdown", "summary"]
    ensures Find(r, "markdown") == Some(TextOutput(markdown)) && Find(r, "summary") == Some(SummaryOutput(summary))
  {
    [("markdown", TextOutput(markdown)), ("summary", SummaryOutput(summary))]
  }

  /** Phase i + 1 is group i, after the lines of the earlier groups. */
  lemma PhaseLineAt(groups: seq<seq<string>>, i: nat)
    requires i < |groups|
    ensures PhaseLines(groups[..i]) + PhaseLine(i + 1, groups[i]) <= PhaseLines(groups)
  {
    PhaseLinesSnoc(groups, i);
    PhaseLinesPrefix(groups, i + 1);
  }

  lemma {:induction false} PhaseLinesPrefix(groups: seq<seq<string>>, n: nat)
    requires n <= |groups|
    ensures PhaseLines(groups[..n]) <= PhaseLines(groups)
  {
    if n < |groups| {
      var init := groups[..|groups| - 1];
      PhaseLinesPrefix(init, n);
      assert init[..n] == groups[..n];
    } else {
      assert groups[..n] == groups;
    }
  }

  /**
   * One section per task in list order: the section of task i starts with its heading right
   * after the sections of the tasks before it, and later tasks' sections start later.
   */
  lemma TaskSectionAt(tasks: seq<Task>, i: nat, isoDate: int -> string)
    requires i < |tasks|
    ensures TaskSections(tasks[..i], isoDate) + Heading(tasks[i]) <= TaskSections(tasks, isoDate)
    ensures |TaskSections(tasks[..i], isoDate)| < |TaskSections(tasks[..i + 1], isoDate)|
  {
    var text := t => TaskSection(t, isoDate);
    var before := TaskSections(tasks[..i], isoDate);
    var section := TaskSection(tasks[i], isoDate);
    ConcatSnoc(tasks, text, i);
    ConcatPrefix(tasks, text, i + 1);
    PrefixExtend(before, Heading(tasks[i]), section);
    PrefixTransitive(before + Heading(tasks[i]), before + section, TaskSections(tasks, isoDate));
  }

  lemma PrefixExtend<T>(a: seq<T>, b: seq<T>, c: seq<T>)
    requires b <= c
    ensures a + b <= a + c
  {
    assert (a + c)[..|a + b|] == a + b;
  }

  lemma PrefixTransitive<T>(a: seq<T>, b: seq<T>, c: seq<T>)
    requires a <= b && b <= c
    ensures a <= c
  {
    assert c[..|a|] == b[..|a|];
  }
}
