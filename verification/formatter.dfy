/**
 * `FormatterAgent`: the output formats built from the final plan.  Modelled here are the
 * category and complexity counts, the Mermaid Gantt text, the dependency-graph view, the
 * JSON export and the merge of the formats into `outputs`.  `datetime.now().isoformat()` is
 * the parameter `createdAt`, the ISO rendering of a day number is the parameter `isoDate`,
 * and the CSV, ASCII-timeline and executive-summary texts are parameters of `Process`.
 */
module Formatter {
  import opened Wrappers
  import opened Dicts
  import opened Graphs
  import opened Plan
  import opened Text

  /** `task.get('category', 'other')`, the key `_count_by_category` counts under. */
  function CategoryKey(t: Task): string {
    t.category.GetOr("other")
  }

  /** `task.get('complexity', 'medium')`, the key `_count_by_complexity` counts under. */
  function ComplexityKey(t: Task): string {
    t.complexity.GetOr("medium")
  }

  /** `task.get('category', 'Other')`, the key the Gantt chart groups by (capital O). */
  function SectionKey(t: Task): string {
    t.category.GetOr("Other")
  }

  /** The counts after the loop over `tasks`: `counts[k] = counts.get(k, 0) + 1` per task. */
  function Tally(tasks: seq<Task>, key: Task -> string): Dict<nat> {
    if tasks == [] then []
    else
      var counts := Tally(tasks[..|tasks| - 1], key);
      var k := key(tasks[|tasks| - 1]);
      Put(counts, k, Increment(Get(counts, k, 0)))
  }

  /** `counts.get(k, 0) + 1`. */
  function Increment(count: nat): nat {
    count + 1
  }

  /** The tasks whose key is `k`, in list order. */
  function Having(tasks: seq<Task>, key: Task -> string, k: string): (r: seq<Task>)
    ensures |r| <= |tasks|
    ensures forall t :: t in r ==> key(t) == k
  {
    if tasks == [] then []
    else
      var prev := Having(tasks[..|tasks| - 1], key, k);
      if key(tasks[|tasks| - 1]) == k then prev + [tasks[|tasks| - 1]] else prev
  }

  /** The distinct keys of the tasks, in the order of their first occurrence. */
  function FirstOccurrences(tasks: seq<Task>, key: Task -> string): seq<string> {
    if tasks == [] then []
    else
      var prev := FirstOccurrences(tasks[..|tasks| - 1], key);
      var k := key(tasks[|tasks| - 1]);
      if k in prev then prev else prev + [k]
  }

  /** `sum(d.values())`. */
  function Total(d: seq<(string, nat)>): nat {
    if d == [] then 0 else d[0].1 + Total(d[1..])
  }

  /** The counting loop shared by `_count_by_category` and `_count_by_complexity`. */
  method Count(tasks: seq<Task>, key: Task -> string) returns (counts: Dict<nat>)
    ensures counts == Tally(tasks, key)
  {
    counts := [];
    for i := 0 to |tasks|
      invariant counts == Tally(tasks[..i], key)
    {
      var k := key(tasks[i]);
      ghost var before := counts;
      counts := Put(counts, k, Increment(Get(counts, k, 0)));
      TallySnoc(tasks, key, i, before, counts);
    }
    assert tasks[..|tasks|] == tasks;
  }

  /** One more iteration counts one more task. */
  lemma TallySnoc(tasks: seq<Task>, key: Task -> string, i: nat, before: Dict<nat>, after: Dict<nat>)
    requires i < |tasks| && before == Tally(tasks[..i], key)
    requires after == Put(before, key(tasks[i]), Increment(Get(before, key(tasks[i]), 0)))
    ensures after == Tally(tasks[..i + 1], key)
  {
    assert tasks[..i + 1][..i] == tasks[..i];
  }

  /** `_count_by_category(tasks)`. */
  method CountByCategory(tasks: seq<Task>) returns (counts: Dict<nat>)
    ensures counts == Tally(tasks, CategoryKey)
  {
    counts := Count(tasks, CategoryKey);
  }

  /** `_count_by_complexity(tasks)`. */
  method CountByComplexity(tasks: seq<Task>) returns (counts: Dict<nat>)
    ensures counts == Tally(tasks, ComplexityKey)
  {
    counts := Count(tasks, ComplexityKey);
  }

  /** A key is counted exactly when some task has it, and its count is the number of such tasks. */
  lemma {:induction false} TallyCounts(tasks: seq<Task>, key: Task -> string, k: string)
    ensures Find(Tally(tasks, key), k) == if Having(tasks, key, k) == [] then None else Some(|Having(tasks, key, k)|)
  {
    if tasks != [] {
      TallyCounts(tasks[..|tasks| - 1], key, k);
    }
  }

  /** The keys of the counts appear in the order of their first occurrence among the tasks. */
  lemma {:induction false} TallyKeys(tasks: seq<Task>, key: Task -> string)
    ensures Keys(Tally(tasks, key)) == FirstOccurrences(tasks, key)
  {
    if tasks != [] {
      var init := tasks[..|tasks| - 1];
      var prev := Tally(init, key);
      var k := key(tasks[|tasks| - 1]);
      TallyKeys(init, key);
      HasKeyIsKey(prev, k);
      var r := Put(prev, k, Increment(Get(prev, k, 0)));
      if !HasKey(prev, k) {
        assert Keys(r) == Keys(prev) + [k];
      }
    }
  }

  /** The counts add up to the number of tasks. */
  lemma {:induction false} TallySum(tasks: seq<Task>, key: Task -> string)
    ensures Total(Tally(tasks, key)) == |tasks|
  {
    if tasks != [] {
      var init := tasks[..|tasks| - 1];
      var prev := Tally(init, key);
      var k := key(tasks[|tasks| - 1]);
      TallySum(init, key);
      PutSum(prev, k, Increment(Get(prev, k, 0)));
    }
  }

  /** Putting `v` under `k` trades the old value of `k` (0 when absent) for `v` in the sum. */
  lemma PutSum(d: Dict<nat>, k: string, v: nat)
    ensures Total(Put(d, k, v)) + Get(d, k, 0) == Total(d) + v
  {
    StoreSum(d, k, v);
  }

  lemma {:induction false} StoreSum(d: seq<(string, nat)>, k: string, v: nat)
    ensures Total(Store(d, k, v)) + Get(d, k, 0) == Total(d) + v
  {
    if d != [] {
      var r := Store(d, k, v);
      if d[0].0 == k {
        assert r[1..] == d[1..];
      } else {
        StoreSum(d[1..], k, v);
        assert r[1..] == Store(d[1..], k, v);
      }
    }
  }

  /** `categories` after the grouping loop of `_generate_gantt_chart`. */
  function Group(tasks: seq<Task>): Dict<seq<Task>> {
    if tasks == [] then []
    else
      var categories := Group(tasks[..|tasks| - 1]);
      var task := tasks[|tasks| - 1];
      var cat := SectionKey(task);
      var categories := if HasKey(categories, cat) then categories else Put(categories, cat, []);
      Put(categories, cat, Get(categories, cat, []) + [task])
  }

  /** The grouping loop: a list per category, in the order the categories first occur. */
  method GroupBySection(tasks: seq<Task>) returns (categories: Dict<seq<Task>>)
    ensures categories == Group(tasks)
  {
    categories := [];
    for i := 0 to |tasks|
      invariant categories == Group(tasks[..i])
    {
      assert tasks[..i + 1][..i] == tasks[..i];
      var task := tasks[i];
      var cat := SectionKey(task);
      if !HasKey(categories, cat) {
        categories := Put(categories, cat, []);
      }
      categories := Put(categories, cat, Get(categories, cat, []) + [task]);
    }
    assert tasks[..|tasks|] == tasks;
  }

  /** The section of category `c` lists exactly the tasks of that category, in list order. */
  lemma {:induction false} GroupMembers(tasks: seq<Task>, c: string)
    ensures HasKey(Group(tasks), c) <==> Having(tasks, SectionKey, c) != []
    ensures Get(Group(tasks), c, []) == Having(tasks, SectionKey, c)
  {
    if tasks != [] {
      GroupMembers(tasks[..|tasks| - 1], c);
    }
  }

  /** The sections appear in the order of each category's first occurrence. */
  lemma {:induction false} GroupKeys(tasks: seq<Task>)
    ensures Keys(Group(tasks)) == FirstOccurrences(tasks, SectionKey)
  {
    if tasks != [] {
      var init := tasks[..|tasks| - 1];
      var prev := Group(init);
      var c := SectionKey(tasks[|tasks| - 1]);
      GroupKeys(init);
      HasKeyIsKey(prev, c);
      if !HasKey(prev, c) {
        var mid := Put(prev, c, []);
        assert Keys(mid) == Keys(prev) + [c];
        assert HasKey(mid, c);
      }
    }
  }

  /** The number of entries in all the section lists together. */
  function Entries(d: seq<(string, seq<Task>)>): nat {
    if d == [] then 0 else |d[0].1| + Entries(d[1..])
  }

  /** Storing `v` under `k` trades the length of the old list of `k` for that of `v`. */
  lemma {:induction false} StoreSizes(d: seq<(string, seq<Task>)>, k: string, v: seq<Task>)
    ensures Entries(Store(d, k, v)) + |Get(d, k, [])| == Entries(d) + |v|
  {
    if d != [] {
      var r := Store(d, k, v);
      if d[0].0 == k {
        assert r[1..] == d[1..];
      } else {
        StoreSizes(d[1..], k, v);
        assert r[1..] == Store(d[1..], k, v);
      }
    }
  }

  /** The sections hold |tasks| entries between them. */
  lemma {:induction false} GroupSizes(tasks: seq<Task>)
    ensures Entries(Group(tasks)) == |tasks|
  {
    if tasks != [] {
      var init := tasks[..|tasks| - 1];
      var prev := Group(init);
      var c := SectionKey(tasks[|tasks| - 1]);
      GroupSizes(init);
      var mid := if HasKey(prev, c) then prev else Put(prev, c, []);
      if !HasKey(prev, c) {
        StoreSizes(prev, c, []);
      }
      StoreSizes(mid, c, Get(mid, c, []) + [tasks[|tasks| - 1]]);
    }
  }

  /**
   * Every task appears in exactly one section, the one of its category: it is listed there,
   * every section lists only tasks of its own category, and the sections hold |tasks|
   * entries between them.
   */
  lemma SectionsPartition(tasks: seq<Task>, i: nat)
    requires i < |tasks|
    ensures tasks[i] in Get(Group(tasks), SectionKey(tasks[i]), [])
    ensures forall c, t :: t in Get(Group(tasks), c, []) ==> SectionKey(t) == c
    ensures Entries(Group(tasks)) == |tasks|
  {
    HavingIncludes(tasks, SectionKey, i);
    GroupMembers(tasks, SectionKey(tasks[i]));
    forall c, t | t in Get(Group(tasks), c, [])
      ensures SectionKey(t) == c
    {
      GroupMembers(tasks, c);
    }
    GroupSizes(tasks);
  }

  /** A task is among the tasks of its own key. */
  lemma {:induction false} HavingIncludes(tasks: seq<Task>, key: Task -> string, i: nat)
    requires i < |tasks|
    ensures tasks[i] in Having(tasks, key, key(tasks[i]))
  {
    if i < |tasks| - 1 {
      var init := tasks[..|tasks| - 1];
      HavingIncludes(init, key, i);
    }
  }

  /** `task['name'].replace(':', ' ')[:30]`: at most 30 characters, none of them a colon. */
  function GanttName(name: string): (r: string)
    ensures |r| == if |name| <= 30 then |name| else 30
    ensures forall i :: 0 <= i < |r| ==> r[i] == if name[i] == ':' then ' ' else name[i]
    ensures ':' !in r
  {
    Prefix(ReplaceChar(name, ':', ' '), 30)
  }

  /**
   * `int(task.get('duration', 1))`: the duration in whole days, truncated toward zero; 1 when
   * the task has no duration.
   */
  function WholeDays(tenths: Option<int>): (r: int)
    ensures tenths.None? ==> r == 1
    ensures tenths.Some? && tenths.value >= 0 ==> 0 <= r && r * 10 <= tenths.value < r * 10 + 10
    ensures tenths.Some? && tenths.value < 0 ==> r <= 0 && r * 10 - 10 < tenths.value <= r * 10
  {
    match tenths
    case None => 1
    case Some(t) => if t >= 0 then t / 10 else -((-t) / 10)
  }

  /** `task.get('start_date', '')`, rendered by `isoDate`. */
  function StartText(t: Task, isoDate: int -> string): string {
    match t.startDate
    case None => ""
    case Some(d) => isoDate(d)
  }

  /** The Gantt line of one task: after its first dependency, or from its start date when it has none. */
  function TaskLine(t: Task, isoDate: int -> string): string {
    var deps := t.dependencies.GetOr([]);
    var when := if deps != [] then "after " + deps[0] else StartText(t, isoDate);
    "    " + GanttName(t.name) + " (" + t.id + ") :" + t.id + ", " + when + ", " + IntToString(WholeDays(t.duration)) + "d\n"
  }

  /** The number of line breaks in a text. */
  function LineBreaks(s: string): nat {
    if s == [] then 0 else LineBreaks(s[..|s| - 1]) + (if s[|s| - 1] == '\n' then 1 else 0)
  }

  lemma {:induction false} LineBreaksAppend(a: string, b: string)
    ensures LineBreaks(a + b) == LineBreaks(a) + LineBreaks(b)
  {
    if b != [] {
      LineBreaksAppend(a, b[..|b| - 1]);
      assert (a + b)[..|a + b| - 1] == a + b[..|b| - 1];
    } else {
      assert a + b == a;
    }
  }

  lemma {:induction false} NoLineBreaks(s: string)
    requires '\n' !in s
    ensures LineBreaks(s) == 0
  {
    if s != [] {
      NoLineBreaks(s[..|s| - 1]);
    }
  }

  /** The texts a task's Gantt line takes from the task contain no line break. */
  predicate SingleLineFields(t: Task, isoDate: int -> string) {
    && '\n' !in t.name && '\n' !in t.id
    && (forall d :: d in t.dependencies.GetOr([]) ==> '\n' !in d)
    && '\n' !in StartText(t, isoDate)
  }

  /** A task whose texts are single-line gets exactly one Gantt line, closed by its line break. */
  lemma TaskLineIsOneLine(t: Task, isoDate: int -> string)
    requires SingleLineFields(t, isoDate)
    ensures LineBreaks(TaskLine(t, isoDate)) == 1
    ensures TaskLine(t, isoDate)[|TaskLine(t, isoDate)| - 1] == '\n'
  {
    var deps := t.dependencies.GetOr([]);
    var when := if deps != [] then "after " + deps[0] else StartText(t, isoDate);
    if deps != [] {
      assert deps[0] in deps;
    }
    GanttNameSingleLine(t.name);
    IntToStringSingleLine(WholeDays(t.duration));
    var body := LineBody(GanttName(t.name), t.id, when, IntToString(WholeDays(t.duration)));
    assert TaskLine(t, isoDate) == body + "d\n";
    NoLineBreaks(body);
    LineBreaksAppend(body, "d\n");
    ClosingBreak();
  }

  /** A Gantt line up to its "d" suffix. */
  function LineBody(name: string, id: string, when: string, days: string): (r: string)
    ensures '\n' !in name && '\n' !in id && '\n' !in when && '\n' !in days ==> '\n' !in r
  {
    "    " + name + " (" + id + ") :" + id + ", " + when + ", " + days
  }

  lemma ClosingBreak()
    ensures LineBreaks("d\n") == 1
  {
    assert "d\n"[..1] == "d" && "d"[..0] == [];
  }

  lemma GanttNameSingleLine(name: string)
    requires '\n' !in name
    ensures '\n' !in GanttName(name)
  {
    var r := GanttName(name);
    forall i | 0 <= i < |r|
      ensures r[i] != '\n'
    {
      assert name[i] in name;
    }
  }

  lemma IntToStringSingleLine(i: int)
    ensures '\n' !in IntToString(i)
  {
    var r := IntToString(i);
    var digits := if i >= 0 then r else r[1..];
    assert IsDigits(digits);
    forall k | 0 <= k < |r|
      ensures r[k] != '\n'
    {
      if i < 0 && k > 0 {
        assert r[k] == digits[k - 1];
      }
    }
  }

  /** Single-line tasks give one line each: n tasks make exactly n lines, the last one closed. */
  lemma {:induction false} LinesArePerTask(tasks: seq<Task>, isoDate: int -> string)
    requires forall t :: t in tasks ==> SingleLineFields(t, isoDate)
    ensures LineBreaks(Lines(tasks, isoDate)) == |tasks|
    ensures tasks != [] ==> Lines(tasks, isoDate)[|Lines(tasks, isoDate)| - 1] == '\n'
  {
    if tasks != [] {
      var init := tasks[..|tasks| - 1];
      var last := tasks[|tasks| - 1];
      assert forall t :: t in init ==> t in tasks;
      LinesArePerTask(init, isoDate);
      assert last in tasks;
      TaskLineIsOneLine(last, isoDate);
      LineBreaksAppend(Lines(init, isoDate), TaskLine(last, isoDate));
    }
  }

  /** The lines of the tasks of one section, in order. */
  function Lines(tasks: seq<Task>, isoDate: int -> string): string {
    if tasks == [] then [] else Lines(tasks[..|tasks| - 1], isoDate) + TaskLine(tasks[|tasks| - 1], isoDate)
  }

  /** One section: its title-cased heading and the lines of its tasks. */
  function SectionText(category: string, tasks: seq<Task>, isoDate: int -> string): string {
    "    section " + Title(category) + "\n" + Lines(tasks, isoDate)
  }

  /** The sections of the grouped tasks, in the order of the groups. */
  function Sections(groups: seq<(string, seq<Task>)>, isoDate: int -> string): string {
    if groups == [] then []
    else
      var last := groups[|groups| - 1];
      Sections(groups[..|groups| - 1], isoDate) + SectionText(last.0, last.1, isoDate)
  }

  /** The chart header with the project description as its title. */
  function GanttHeader(description: string): string {
    "```mermaid\n" + "gantt\n" + "    title " + description + " - Timeline\n"
    + "    dateFormat YYYY-MM-DD\n" + "    axisFormat %m/%d\n\n"
  }

  /** The text `_generate_gantt_chart` returns. */
  function GanttText(description: string, tasks: seq<Task>, isoDate: int -> string): string {
    GanttHeader(description) + Sections(Group(tasks), isoDate) + "```\n"
  }

  /** `_generate_gantt_chart(state)`: the header, one section per category, the closing fence. */
  method GenerateGanttChart(description: string, tasks: seq<Task>, isoDate: int -> string) returns (gantt: string)
    ensures gantt == GanttText(description, tasks, isoDate)
  {
    gantt := GanttHeader(description);
    var categories := GroupBySection(tasks);
    for i := 0 to |categories|
      invariant gantt == GanttHeader(description) + Sections(categories[..i], isoDate)
    {
      var category, catTasks := categories[i].0, categories[i].1;
      var heading := "    section " + Title(category) + "\n";
      SectionsSnoc(categories, i, isoDate);
      Associative(GanttHeader(description), Sections(categories[..i], isoDate), heading + Lines(catTasks, isoDate));
      Associative(gantt, heading, Lines(catTasks, isoDate));
      gantt := gantt + heading;
      gantt := AppendLines(gantt, catTasks, isoDate);
    }
    assert categories[..|categories|] == categories;
    gantt := gantt + "```\n";
  }

  /** One more group adds its section. */
  lemma SectionsSnoc(groups: seq<(string, seq<Task>)>, i: nat, isoDate: int -> string)
    requires i < |groups|
    ensures Sections(groups[..i + 1], isoDate) == Sections(groups[..i], isoDate) + SectionText(groups[i].0, groups[i].1, isoDate)
  {
    assert groups[..i + 1][..i] == groups[..i];
  }

  /** The inner loop of `_generate_gantt_chart`: one line per task of the section. */
  method AppendLines(text: string, tasks: seq<Task>, isoDate: int -> string) returns (gantt: string)
    ensures gantt == text + Lines(tasks, isoDate)
  {
    gantt := text;
    for j := 0 to |tasks|
      invariant gantt == text + Lines(tasks[..j], isoDate)
    {
      var line := TaskLine(tasks[j], isoDate);
      LinesSnoc(tasks, j, isoDate);
      Associative(text, Lines(tasks[..j], isoDate), line);
      gantt := gantt + line;
    }
    assert tasks[..|tasks|] == tasks;
  }

  /** One more task adds its line. */
  lemma LinesSnoc(tasks: seq<Task>, j: nat, isoDate: int -> string)
    requires j < |tasks|
    ensures Lines(tasks[..j + 1], isoDate) == Lines(tasks[..j], isoDate) + TaskLine(tasks[j], isoDate)
  {
    assert tasks[..j + 1][..j] == tasks[..j];
  }

  lemma Associative<T>(a: seq<T>, b: seq<T>, c: seq<T>)
    ensures a + b + c == a + (b + c)
  {
  }

  /**
   * The reference reading of the chart body: for each category in the order of its first
   * occurrence, a section with the lines of exactly the tasks of that category.
   */
  function SectionsByCategory(categories: seq<string>, tasks: seq<Task>, isoDate: int -> string): string {
    if categories == [] then []
    else
      var c := categories[|categories| - 1];
      SectionsByCategory(categories[..|categories| - 1], tasks, isoDate) + SectionText(c, Having(tasks, SectionKey, c), isoDate)
  }

  /** The chart body is the reference reading: categories by first occurrence, each with its own tasks. */
  lemma GanttSections(tasks: seq<Task>, isoDate: int -> string)
    ensures Sections(Group(tasks), isoDate) == SectionsByCategory(FirstOccurrences(tasks, SectionKey), tasks, isoDate)
  {
    var d := Group(tasks);
    forall i | 0 <= i < |d|
      ensures d[i].1 == Having(tasks, SectionKey, d[i].0)
    {
      FindAt(d, i);
      GroupMembers(tasks, d[i].0);
    }
    GroupKeys(tasks);
    SectionsOfGroups(d, tasks, isoDate);
  }

  /** Groups that list exactly the tasks of their key give the reference sections of their keys. */
  lemma {:induction false} SectionsOfGroups(d: seq<(string, seq<Task>)>, tasks: seq<Task>, isoDate: int -> string)
    requires forall i :: 0 <= i < |d| ==> d[i].1 == Having(tasks, SectionKey, d[i].0)
    ensures Sections(d, isoDate) == SectionsByCategory(Keys(d), tasks, isoDate)
  {
    if d != [] {
      var init := d[..|d| - 1];
      SectionsOfGroups(init, tasks, isoDate);
      assert Keys(d)[..|d| - 1] == Keys(init);
    }
  }

  /** Every task has a `complexity` key. */
  predicate Rated(tasks: seq<Task>) {
    forall i :: 0 <= i < |tasks| ==> tasks[i].complexity.Some?
  }

  /** The node of task i: its keys, and its cell in a grid four nodes wide. */
  function NodeAt(tasks: seq<Task>, i: nat): Node
    requires i < |tasks| && tasks[i].category.Some? && tasks[i].complexity.Some?
  {
    var t := tasks[i];
    Node(t.id, t.name, t.category.value, t.complexity.value, t.duration.GetOr(0), (i % 4) * 150, (i / 4) * 100)
  }

  /** `f"edge_{edge_id}"`. */
  function EdgeId(n: nat): string {
    "edge_" + NatToString(n)
  }

  /** The edges from each of `deps` to `target`, numbered from `first` on. */
  function EdgesOf(target: string, deps: seq<string>, first: nat): (r: seq<Edge>)
    ensures |r| == |deps|
  {
    if deps == [] then []
    else [Edge(EdgeId(first), deps[0], target, "depends on")] + EdgesOf(target, deps[1..], first + 1)
  }

  /** `sum(len(deps) for deps in dependencies.values())`. */
  function DependencyCount(g: seq<(string, seq<string>)>): nat {
    if g == [] then 0 else |g[0].1| + DependencyCount(g[1..])
  }

  /** The edges of the entries of `g` in the order of `items()`, numbered from `first` on. */
  function EdgeList(g: seq<(string, seq<string>)>, first: nat): (r: seq<Edge>)
    ensures |r| == DependencyCount(g)
  {
    if g == [] then []
    else EdgesOf(g[0].0, g[0].1, first) + EdgeList(g[1..], first + |g[0].1|)
  }

  /** The value `_generate_dependency_graph` returns. */
  function GraphViewOf(tasks: seq<Task>, g: Graph): GraphView
    requires Categorised(tasks) && Rated(tasks)
  {
    GraphView(seq(|tasks|, i requires 0 <= i < |tasks| => NodeAt(tasks, i)), EdgeList(g, 0), "hierarchical")
  }

  /**
   * `_generate_dependency_graph(state)`: a node per task in list order, then an edge per
   * listed dependency with a running counter for the ids.  `task['category']` and
   * `task['complexity']` are indexed directly, so every task must have both keys.
   */
  method GenerateDependencyGraph(tasks: seq<Task>, dependencies: Graph) returns (view: GraphView)
    requires Categorised(tasks) && Rated(tasks)
    ensures view == GraphViewOf(tasks, dependencies)
  {
    var nodes: seq<Node> := [];
    for i := 0 to |tasks|
      invariant |nodes| == i
      invariant forall j :: 0 <= j < i ==> nodes[j] == NodeAt(tasks, j)
    {
      var task := tasks[i];
      nodes := nodes + [Node(task.id, task.name, task.category.value, task.complexity.value,
                             task.duration.GetOr(0), (i % 4) * 150, (i / 4) * 100)];
    }
    var edges := CreateEdges(dependencies);
    view := GraphView(nodes, edges, "hierarchical");
  }

  /** The edge loops of `_generate_dependency_graph`. */
  method CreateEdges(dependencies: Graph) returns (edges: seq<Edge>)
    ensures edges == EdgeList(dependencies, 0)
  {
    edges := [];
    var edgeId := 0;
    for i := 0 to |dependencies|
      invariant edgeId == |edges|
      invariant edges + EdgeList(dependencies[i..], edgeId) == EdgeList(dependencies, 0)
    {
      var taskId, deps := dependencies[i].0, dependencies[i].1;
      EdgeListStep(dependencies, i, edgeId);
      Associative(edges, EdgesOf(taskId, deps, edgeId), EdgeList(dependencies[i + 1..], edgeId + |deps|));
      edges, edgeId := AppendEdges(edges, taskId, deps, edgeId);
    }
    assert dependencies[|dependencies|..] == [];
  }

  /** The inner loop: one edge per dependency of `taskId`, numbered on from `edgeId`. */
  method AppendEdges(edges0: seq<Edge>, taskId: string, deps: seq<string>, edgeId0: nat) returns (edges: seq<Edge>, edgeId: nat)
    requires edgeId0 == |edges0|
    ensures edges == edges0 + EdgesOf(taskId, deps, edgeId0)
    ensures edgeId == |edges|
  {
    edges, edgeId := edges0, edgeId0;
    for j := 0 to |deps|
      invariant edgeId == |edges|
      invariant edges + EdgesOf(taskId, deps[j..], edgeId) == edges0 + EdgesOf(taskId, deps, edgeId0)
    {
      var dep := deps[j];
      EdgeStep(edges, taskId, deps, j, edgeId);
      edges := edges + [Edge(EdgeId(edgeId), dep, taskId, "depends on")];
      edgeId := edgeId + 1;
    }
    assert deps[|deps|..] == [];
  }

  /** The edges from entry i on are those of entry i followed by those of the later entries. */
  lemma EdgeListStep(g: seq<(string, seq<string>)>, i: nat, first: nat)
    requires i < |g|
    ensures EdgeList(g[i..], first) == EdgesOf(g[i].0, g[i].1, first) + EdgeList(g[i + 1..], first + |g[i].1|)
  {
    assert g[i..][0] == g[i] && g[i..][1..] == g[i + 1..];
  }

  /** Appending the edge of dependency j moves it from the pending edges to the built ones. */
  lemma EdgeStep(edges: seq<Edge>, target: string, deps: seq<string>, j: nat, first: nat)
    requires j < |deps|
    ensures edges + [Edge(EdgeId(first), deps[j], target, "depends on")] + EdgesOf(target, deps[j + 1..], first + 1)
            == edges + EdgesOf(target, deps[j..], first)
  {
    assert deps[j..][0] == deps[j] && deps[j..][1..] == deps[j + 1..];
  }

  /** The nodes sit in distinct cells of the grid. */
  lemma NodesApart(tasks: seq<Task>, g: Graph, i: nat, j: nat)
    requires Categorised(tasks) && Rated(tasks)
    requires i < j < |tasks|
    ensures var nodes := GraphViewOf(tasks, g).nodes;
            (nodes[i].x, nodes[i].y) != (nodes[j].x, nodes[j].y)
  {
    var nodes := GraphViewOf(tasks, g).nodes;
    assert nodes[i] == NodeAt(tasks, i) && nodes[j] == NodeAt(tasks, j);
    assert i == 4 * (i / 4) + i % 4 && j == 4 * (j / 4) + j % 4;
  }

  /** Edge k of the list has the id `edge_<first + k>` and the label "depends on". */
  lemma {:induction false} EdgeFields(g: seq<(string, seq<string>)>, first: nat, k: nat)
    requires k < |EdgeList(g, first)|
    ensures EdgeList(g, first)[k].id == EdgeId(first + k)
    ensures EdgeList(g, first)[k].labelText == "depends on"
  {
    if k < |g[0].1| {
      EdgesOfFields(g[0].0, g[0].1, first, k);
    } else {
      EdgeFields(g[1..], first + |g[0].1|, k - |g[0].1|);
    }
  }

  lemma {:induction false} EdgesOfFields(target: string, deps: seq<string>, first: nat, k: nat)
    requires k < |deps|
    ensures EdgesOf(target, deps, first)[k] == Edge(EdgeId(first + k), deps[k], target, "depends on")
  {
    if k > 0 {
      EdgesOfFields(target, deps[1..], first + 1, k - 1);
    }
  }

  /** Different counters give different edge ids, so the ids `edge_0`, `edge_1`, ... are distinct. */
  lemma EdgeIdInjective(a: nat, b: nat)
    requires EdgeId(a) == EdgeId(b)
    ensures a == b
  {
    assert EdgeId(a)[5..] == NatToString(a) && EdgeId(b)[5..] == NatToString(b);
    NatToStringInjective(a, b);
  }

  /** Every edge runs from a dependency to the task that lists it. */
  lemma {:induction false} EdgesSound(g: seq<(string, seq<string>)>, first: nat, k: nat)
    requires UniqueKeys(g)
    requires k < |EdgeList(g, first)|
    ensures EdgeList(g, first)[k].source in Deps(g, EdgeList(g, first)[k].target)
  {
    var e := EdgeList(g, first)[k];
    if k < |g[0].1| {
      EdgesOfFields(g[0].0, g[0].1, first, k);
    } else {
      EdgeFields(g[1..], first + |g[0].1|, k - |g[0].1|);
      EdgesSound(g[1..], first + |g[0].1|, k - |g[0].1|);
      var m := DepsOfKey(g[1..], e.target);
      assert g[m + 1].0 == e.target;
    }
  }

  /** Every listed dependency has its edge. */
  lemma {:induction false} EdgesComplete(g: seq<(string, seq<string>)>, first: nat, u: string, v: string) returns (k: nat)
    requires v in Deps(g, u)
    ensures k < |EdgeList(g, first)|
    ensures EdgeList(g, first)[k].source == v && EdgeList(g, first)[k].target == u
  {
    if g[0].0 == u {
      var j :| 0 <= j < |g[0].1| && g[0].1[j] == v;
      EdgesOfFields(u, g[0].1, first, j);
      k := j;
    } else {
      k := EdgesComplete(g[1..], first + |g[0].1|, u, v);
      k := k + |g[0].1|;
    }
  }

  /**
   * `_generate_json_export(state)`; `created_at` is the parameter `createdAt`.  The statistics
   * count every task once under its category and once under its complexity, and the
   * parallelisation factor is the number of groups.
   */
  function JsonExportOf(description: string, createdAt: string, totalDuration: int, projectStart: Option<int>,
                        projectEnd: Option<int>, tasks: seq<Task>, dependencies: Graph,
                        parallelGroups: seq<seq<string>>, criticalPath: seq<string>): (r: JsonExport)
    ensures r.tasks == tasks && r.statistics.totalTasks == |r.tasks|
    ensures Total(r.statistics.categories) == |r.tasks| && Total(r.statistics.complexityDistribution) == |r.tasks|
    ensures r.statistics.parallelizationFactor == |r.parallelGroups|
  {
    TallySum(tasks, CategoryKey);
    TallySum(tasks, ComplexityKey);
    JsonExport(description, createdAt, totalDuration, projectStart, projectEnd, tasks, dependencies,
               parallelGroups, criticalPath,
               Statistics(|tasks|, Tally(tasks, CategoryKey), Tally(tasks, ComplexityKey), |parallelGroups|))
  }

  /** The keys of the `formats` dictionary, in its order. */
  const FormatKeys: seq<string> :=
    ["gantt_chart", "json_export", "csv_export", "timeline_visual", "dependency_graph", "executive_summary"]

  /** The `formats` dictionary. */
  function Formats(gantt: string, json: JsonExport, csv: string, timeline: string, graph: GraphView, summary: string): (r: seq<(string, Output)>)
    ensures Keys(r) == FormatKeys
  {
    var r := [(FormatKeys[0], TextOutput(gantt)), (FormatKeys[1], JsonOutput(json)), (FormatKeys[2], TextOutput(csv)),
              (FormatKeys[3], TextOutput(timeline)), (FormatKeys[4], GraphOutput(graph)), (FormatKeys[5], TextOutput(summary))];
    assert Keys(r) == FormatKeys;
    r
  }

  /** `outputs.update(formats)`. */
  function Merged(outputs: Dict<Output>, formats: seq<(string, Output)>): Dict<Output>
    decreases formats
  {
    if formats == [] then outputs else Merged(Put(outputs, formats[0].0, formats[0].1), formats[1..])
  }

  /** The `formats` dictionary `process` builds from the state. */
  function FormatsFor(state: PlanState, createdAt: string, isoDate: int -> string,
                      csvExport: string, timelineVisual: string, executiveSummary: string): seq<(string, Output)>
    reads state
    requires Categorised(state.tasks) && Rated(state.tasks)
  {
    Formats(GanttText(state.description, state.tasks, isoDate),
            JsonExportOf(state.description, createdAt, state.totalDuration, state.projectStart, state.projectEnd,
                         state.tasks, state.dependencies, state.parallelGroups, state.criticalPath),
            csvExport, timelineVisual, GraphViewOf(state.tasks, state.dependencies), executiveSummary)
  }

  /**
   * `process(state)`: the six formats are merged into `outputs`, which is created empty when
   * absent.  `task['category']` and `task['complexity']` are indexed by the dependency graph.
   */
  method Process(state: PlanState, createdAt: string, isoDate: int -> string,
                 csvExport: string, timelineVisual: string, executiveSummary: string)
    requires Categorised(state.tasks) && Rated(state.tasks)
    modifies state
    ensures state.description == old(state.description) && state.tasks == old(state.tasks)
    ensures state.totalDuration == old(state.totalDuration) && state.dependencies == old(state.dependencies)
    ensures state.parallelGroups == old(state.parallelGroups) && state.criticalPath == old(state.criticalPath)
    ensures state.projectStart == old(state.projectStart) && state.projectEnd == old(state.projectEnd)
    ensures state.outputs == Some(Merged(old(state.outputs).GetOr([]),
                                         FormatsFor(state, createdAt, isoDate, csvExport, timelineVisual, executiveSummary)))
  {
    var gantt := GenerateGanttChart(state.description, state.tasks, isoDate);
    var json := JsonExportOf(state.description, createdAt, state.totalDuration, state.projectStart, state.projectEnd,
                             state.tasks, state.dependencies, state.parallelGroups, state.criticalPath);
    var graph := GenerateDependencyGraph(state.tasks, state.dependencies);
    var formats := Formats(gantt, json, csvExport, timelineVisual, graph, executiveSummary);
    assert formats == FormatsFor(state, createdAt, isoDate, csvExport, timelineVisual, executiveSummary);
    if state.outputs.None? {
      state.outputs := Some([]);
    }
    state.outputs := Some(Merged(state.outputs.value, formats));
  }

  /** The format keys are distinct. */
  lemma FormatKeysDistinct()
    ensures forall i, j :: 0 <= i < j < |FormatKeys| ==> FormatKeys[i] != FormatKeys[j]
  {
  }

  /**
   * After the merge each format key holds its format and every other key keeps its value.
   */
  lemma FormatsMerged(outputs: Dict<Output>, gantt: string, json: JsonExport, csv: string, timeline: string,
                      graph: GraphView, summary: string, k: string)
    ensures var formats := Formats(gantt, json, csv, timeline, graph, summary);
            Find(Merged(outputs, formats), k) == if k in FormatKeys then Find(formats, k) else Find(outputs, k)
  {
    var formats := Formats(gantt, json, csv, timeline, graph, summary);
    FormatKeysDistinct();
    assert UniqueKeys(formats) by {
      assert forall i :: 0 <= i < |formats| ==> formats[i].0 == Keys(formats)[i];
    }
    HasKeyIsKey(formats, k);
    MergedFind(outputs, formats, k);
  }

  /** A merge of entries with distinct keys: their keys take their values, the others keep theirs. */
  lemma {:induction false} MergedFind(outputs: Dict<Output>, formats: seq<(string, Output)>, k: string)
    requires UniqueKeys(formats)
    ensures Find(Merged(outputs, formats), k) == if HasKey(formats, k) then Find(formats, k) else Find(outputs, k)
    decreases formats
  {
    if formats != [] {
      MergedFind(Put(outputs, formats[0].0, formats[0].1), formats[1..], k);
      if HasKey(formats[1..], k) {
        var i := FindIndex(formats[1..], k);
        assert formats[i + 1].0 == k;
      }
    }
  }

  /** The keys present before the merge keep their places at the front. */
  lemma {:induction false} MergedKeepsOrder(outputs: Dict<Output>, formats: seq<(string, Output)>)
    ensures |outputs| <= |Merged(outputs, formats)|
    ensures Keys(Merged(outputs, formats))[..|outputs|] == Keys(outputs)
    decreases formats
  {
    if formats != [] {
      var next := Put(outputs, formats[0].0, formats[0].1);
      MergedKeepsOrder(next, formats[1..]);
      if !HasKey(outputs, formats[0].0) {
        assert Keys(next)[..|outputs|] == Keys(outputs);
      }
    }
  }
}
