// scripts/plan_status.py: a story plan, already split into classified lines, is
// parsed into tasks. Line numbers are 1-based, as the script reports them.
module PlanStatus {
  import opened Prelude
  import opened Tiling

  datatype SectionKind = Subtasks | Testing | ImplementationNotes | OtherSection

  datatype Line =
    | TaskHeading(number: nat, title: string)
    | StatusLine(prefix: string, status: string, suffix: string)
    | SectionHeading(name: string, kind: SectionKind)
    | Checkbox(checked: bool, text: string)
    | Blocker(text: string)
    | StoryHeading(text: string)  // a line that starts with "## "
    | Other(text: string)

  const TO_DO := "__to_do__"
  const IN_PROGRESS := "__in_progress__"
  const DONE := "__done__"

  datatype LiveBlocker = LiveBlocker(line: nat, text: string)

  datatype Boxes = Boxes(total: nat, checked: nat, unchecked: nat) {
    function Tick(done: bool): Boxes {
      if done then Boxes(total + 1, checked + 1, unchecked) else Boxes(total + 1, checked, unchecked + 1)
    }
  }

  datatype Task = Task(
    number: nat, title: string, startLine: nat, endLine: nat, status: Option<string>,
    subtasks: Boxes, testing: Boxes, liveBlockers: seq<LiveBlocker>)
  {
    predicate HasUncheckedSubtasks() { subtasks.unchecked > 0 }
    predicate HasUncheckedTesting() { testing.unchecked > 0 }
    predicate HasLiveBlocker() { liveBlockers != [] }
    predicate Clean() { !HasUncheckedSubtasks() && !HasUncheckedTesting() && !HasLiveBlocker() }
    predicate Is(s: string) { status == Some(s) }
  }

  // ---- what a task's fields mean, from the lines below its heading ----

  function LastStatus(body: seq<Line>): Option<string> {
    if body == [] then None
    else
      var last := body[|body| - 1];
      if last.StatusLine? then Some(last.status) else LastStatus(body[..|body| - 1])
  }

  // The section a line that follows "body" is in.
  function SectionAfter(body: seq<Line>): SectionKind {
    if body == [] then OtherSection
    else
      var last := body[|body| - 1];
      if last.SectionHeading? then last.kind else SectionAfter(body[..|body| - 1])
  }

  function CountBoxes(body: seq<Line>, kind: SectionKind): Boxes {
    if body == [] then Boxes(0, 0, 0)
    else
      var init, last := body[..|body| - 1], body[|body| - 1];
      if last.Checkbox? && SectionAfter(init) == kind then CountBoxes(init, kind).Tick(last.checked)
      else CountBoxes(init, kind)
  }

  // "first" is the line number of the body's first line.
  function BlockersIn(body: seq<Line>, first: nat): seq<LiveBlocker> {
    if body == [] then []
    else
      var init, last := body[..|body| - 1], body[|body| - 1];
      if last.Blocker? then BlockersIn(init, first) + [LiveBlocker(first + |init|, last.text)]
      else BlockersIn(init, first)
  }

  function NextHeading(lines: seq<Line>, i: nat): (j: nat)
    requires i <= |lines|
    ensures i <= j <= |lines|
    ensures forall k | i <= k < j :: !lines[k].TaskHeading?
    ensures j < |lines| ==> lines[j].TaskHeading?
    decreases |lines| - i
  {
    if i == |lines| || lines[i].TaskHeading? then i else NextHeading(lines, i + 1)
  }

  function TaskWith(heading: Line, start: nat, end: nat, body: seq<Line>): Task
    requires heading.TaskHeading?
  {
    Task(heading.number, heading.title, start, end, LastStatus(body),
         CountBoxes(body, Subtasks), CountBoxes(body, Testing), BlockersIn(body, start + 1))
  }

  // The task whose heading is line h (0-based): it runs to the next task heading.
  function TaskAt(lines: seq<Line>, h: nat): Task
    requires h < |lines| && lines[h].TaskHeading?
  {
    var end := NextHeading(lines, h + 1);
    TaskWith(lines[h], h + 1, end, lines[h + 1..end])
  }

  function TasksFrom(lines: seq<Line>, i: nat): seq<Task>
    requires i <= |lines|
    decreases |lines| - i
  {
    if i == |lines| then []
    else if lines[i].TaskHeading? then [TaskAt(lines, i)] + TasksFrom(lines, i + 1)
    else TasksFrom(lines, i + 1)
  }

  function Tasks(lines: seq<Line>): seq<Task> { TasksFrom(lines, 0) }

  // Lines without a heading contribute no task.
  lemma {:induction false} TasksSkip(lines: seq<Line>, i: nat, j: nat)
    requires i <= j <= |lines| && forall k | i <= k < j :: !lines[k].TaskHeading?
    ensures TasksFrom(lines, i) == TasksFrom(lines, j)
    decreases j - i
  {
    if i < j { TasksSkip(lines, i + 1, j); }
  }

  // ---- the tasks tile the plan ----

  function TaskRanges(tasks: seq<Task>): (r: seq<Range>)
    ensures |r| == |tasks| && forall k | 0 <= k < |r| :: r[k] == Range(tasks[k].startLine, tasks[k].endLine)
  {
    if tasks == [] then []
    else [Range(tasks[0].startLine, tasks[0].endLine)] + TaskRanges(tasks[1..])
  }

  // The task ranges cut the lines from the first task heading to the last line
  // into consecutive pieces.
  lemma {:induction false} TasksTile(lines: seq<Line>, i: nat)
    requires i <= |lines|
    ensures Tiles(TaskRanges(TasksFrom(lines, i)), NextHeading(lines, i) + 1, |lines|)
    decreases |lines| - i
  {
    if i < |lines| {
      TasksTile(lines, i + 1);
      if lines[i].TaskHeading? {
        var rest, tasks := TasksFrom(lines, i + 1), TasksFrom(lines, i);
        assert tasks == [TaskAt(lines, i)] + rest;
        assert TaskRanges(tasks)[1..] == TaskRanges(rest);
      }
    }
  }

  // Each task is the one of its heading, and its range holds no other heading.
  lemma {:induction false} TasksHaveOneHeading(lines: seq<Line>, i: nat, t: Task)
    requires i <= |lines| && t in TasksFrom(lines, i)
    ensures 1 <= t.startLine <= t.endLine <= |lines|
    ensures lines[t.startLine - 1] == TaskHeading(t.number, t.title)
    ensures forall n | t.startLine <= n < t.endLine :: !lines[n].TaskHeading?
    ensures t == TaskAt(lines, t.startLine - 1)
    decreases |lines| - i
  {
    if lines[i].TaskHeading? && t == TaskAt(lines, i) {
    } else {
      TasksHaveOneHeading(lines, i + 1, t);
    }
  }

  // ---- the loop of parse_plan ----

  // The task being collected before its end is known: end_line is provisionally the last line.
  function Collected(lines: seq<Line>, h: nat, i: nat): Task
    requires h < i <= |lines| && lines[h].TaskHeading?
  {
    TaskWith(lines[h], h + 1, |lines|, lines[h + 1..i])
  }

  function CollectLine(current: Task, section: SectionKind, line: Line, number: nat): Task {
    match line
    case StatusLine(_, status, _) => current.(status := Some(status))
    case Checkbox(checked, _) =>
      if section == Subtasks then current.(subtasks := current.subtasks.Tick(checked))
      else if section == Testing then current.(testing := current.testing.Tick(checked))
      else current
    case Blocker(text) => current.(liveBlockers := current.liveBlockers + [LiveBlocker(number, text)])
    case _ => current
  }

  lemma CollectOne(lines: seq<Line>, h: nat, i: nat)
    requires h < i < |lines| && lines[h].TaskHeading? && !lines[i].TaskHeading?
    ensures Collected(lines, h, i + 1)
         == CollectLine(Collected(lines, h, i), SectionAfter(lines[h + 1..i]), lines[i], i + 1)
    ensures SectionAfter(lines[h + 1..i + 1])
         == if lines[i].SectionHeading? then lines[i].kind else SectionAfter(lines[h + 1..i])
  {
    var body := lines[h + 1..i + 1];
    assert body[..|body| - 1] == lines[h + 1..i] && body[|body| - 1] == lines[i];
  }

  // After i lines, with the last heading at line h (if any): the tasks before it
  // are finished and "current" holds what its lines so far say.
  ghost predicate Collecting(lines: seq<Line>, i: nat, h: nat, tasks: seq<Task>, current: Option<Task>,
      section: SectionKind)
    requires i <= |lines|
  {
    match current
    case None => tasks == [] && Tasks(lines) == TasksFrom(lines, i)
    case Some(task) =>
      && h < i && lines[h].TaskHeading? && (forall k | h < k < i :: !lines[k].TaskHeading?)
      && task == Collected(lines, h, i) && section == SectionAfter(lines[h + 1..i])
      && Tasks(lines) == tasks + TasksFrom(lines, h)
  }

  // A new heading (or the end of the plan) at line i completes the current task.
  lemma FinishOne(lines: seq<Line>, i: nat, h: nat, tasks: seq<Task>, task: Task, section: SectionKind)
    requires i <= |lines| && Collecting(lines, i, h, tasks, Some(task), section)
    requires i < |lines| ==> lines[i].TaskHeading?
    ensures Tasks(lines) == tasks + [task.(endLine := i)] + TasksFrom(lines, i)
  {
    HeadingIsNext(lines, h + 1, i);
    TasksSkip(lines, h + 1, i);
    assert TasksFrom(lines, h) == [TaskAt(lines, h)] + TasksFrom(lines, i);
  }

  method CollectInto(task: Task, section: SectionKind, line: Line, number: nat)
      returns (task': Task, section': SectionKind)
    ensures task' == CollectLine(task, section, line, number)
    ensures section' == if line.SectionHeading? then line.kind else section
  {
    task', section' := task, section;
    if line.StatusLine? {
      task' := task.(status := Some(line.status));
      return;
    }
    if line.SectionHeading? {
      section' := line.kind;
      return;
    }
    if line.Checkbox? && section == Subtasks {
      task' := task.(subtasks := task.subtasks.Tick(line.checked));
    } else if line.Checkbox? && section == Testing {
      task' := task.(testing := task.testing.Tick(line.checked));
    }
    if line.Blocker? {
      task' := task'.(liveBlockers := task'.liveBlockers + [LiveBlocker(number, line.text)]);
    }
  }

  method ParsePlan(lines: seq<Line>) returns (tasks: seq<Task>)
    ensures tasks == Tasks(lines)
  {
    tasks := [];
    var current: Option<Task> := None;
    var section := OtherSection;
    ghost var h := 0;
    var i := 0;
    while i < |lines|
      invariant 0 <= i <= |lines|
      invariant Collecting(lines, i, h, tasks, current, section)
    {
      var line := lines[i];
      if line.TaskHeading? {
        if current.Some? {
          FinishOne(lines, i, h, tasks, current.value, section);
          tasks := tasks + [current.value.(endLine := i)];
        }
        h := i;
        assert lines[h + 1..i + 1] == [];
        current := Some(Task(line.number, line.title, i + 1, |lines|, None,
                             Boxes(0, 0, 0), Boxes(0, 0, 0), []));
        section := OtherSection;
      } else if current.Some? {
        CollectOne(lines, h, i);
        var task, next := CollectInto(current.value, section, line, i + 1);
        current, section := Some(task), next;
      }
      i := i + 1;
    }
    if current.Some? {
      FinishOne(lines, |lines|, h, tasks, current.value, section);
      tasks := tasks + [current.value];
    }
  }

  lemma {:induction false} HeadingIsNext(lines: seq<Line>, i: nat, j: nat)
    requires i <= j <= |lines| && (forall k | i <= k < j :: !lines[k].TaskHeading?)
    requires j < |lines| ==> lines[j].TaskHeading?
    ensures NextHeading(lines, i) == j
    decreases j - i
  {
    if i < j { HeadingIsNext(lines, i + 1, j); }
  }

  // ---- selection and the story's summary ----

  function WithStatus(tasks: seq<Task>, wanted: set<string>): seq<Task> {
    if tasks == [] then []
    else
      var n := |tasks| - 1;
      if tasks[n].status.Some? && tasks[n].status.value in wanted then WithStatus(tasks[..n], wanted) + [tasks[n]]
      else WithStatus(tasks[..n], wanted)
  }

  // Python's max and min by number: the first of the extreme elements.
  function Highest(tasks: seq<Task>): Option<Task> {
    if tasks == [] then None
    else
      var n := |tasks| - 1;
      var best := Highest(tasks[..n]);
      if best.None? || tasks[n].number > best.value.number then Some(tasks[n]) else best
  }

  function Lowest(tasks: seq<Task>): Option<Task> {
    if tasks == [] then None
    else
      var n := |tasks| - 1;
      var best := Lowest(tasks[..n]);
      if best.None? || tasks[n].number < best.value.number then Some(tasks[n]) else best
  }

  function SelectActive(tasks: seq<Task>): Option<Task> { Highest(WithStatus(tasks, {IN_PROGRESS})) }

  function EarliestTodo(tasks: seq<Task>): Option<Task> { Lowest(WithStatus(tasks, {TO_DO})) }

  predicate StoryComplete(tasks: seq<Task>) {
    tasks != [] && forall t | t in tasks :: t.Is(DONE) && t.Clean()
  }

  function FinalStatus(tasks: seq<Task>): Option<string> {
    var final := Highest(tasks);
    if final.Some? then final.value.status else None
  }

  lemma {:induction false} WithStatusMember(tasks: seq<Task>, wanted: set<string>, t: Task)
    ensures t in WithStatus(tasks, wanted) <==> t in tasks && t.status.Some? && t.status.value in wanted
  {
    if tasks != [] {
      var n := |tasks| - 1;
      assert tasks == tasks[..n] + [tasks[n]];
      WithStatusMember(tasks[..n], wanted, t);
    }
  }

  // The first task whose number no other undercuts, or exceeds.
  ghost predicate FirstLowest(tasks: seq<Task>, k: nat) {
    && k < |tasks| && (forall j | 0 <= j < |tasks| :: tasks[k].number <= tasks[j].number)
    && forall j | 0 <= j < k :: tasks[k].number < tasks[j].number
  }

  ghost predicate FirstHighest(tasks: seq<Task>, k: nat) {
    && k < |tasks| && (forall j | 0 <= j < |tasks| :: tasks[j].number <= tasks[k].number)
    && forall j | 0 <= j < k :: tasks[j].number < tasks[k].number
  }

  lemma {:induction false} LowestIsFirst(tasks: seq<Task>) returns (k: nat)
    requires tasks != []
    ensures FirstLowest(tasks, k) && Lowest(tasks) == Some(tasks[k])
  {
    var n := |tasks| - 1;
    if n == 0 {
      k := 0;
    } else {
      k := LowestIsFirst(tasks[..n]);
      assert forall j | 0 <= j < n :: tasks[..n][j] == tasks[j];
      if tasks[n].number < tasks[k].number { k := n; }
    }
  }

  lemma {:induction false} HighestIsFirst(tasks: seq<Task>) returns (k: nat)
    requires tasks != []
    ensures FirstHighest(tasks, k) && Highest(tasks) == Some(tasks[k])
  {
    var n := |tasks| - 1;
    if n == 0 {
      k := 0;
    } else {
      k := HighestIsFirst(tasks[..n]);
      assert forall j | 0 <= j < n :: tasks[..n][j] == tasks[j];
      if tasks[n].number > tasks[k].number { k := n; }
    }
  }

  // The earliest to-do has the lowest number, the first of those that have it.
  lemma LowestIsLowest(tasks: seq<Task>)
    requires tasks != []
    ensures Lowest(tasks).Some? && Lowest(tasks).value in tasks
    ensures forall t | t in tasks :: Lowest(tasks).value.number <= t.number
    ensures exists k: nat :: FirstLowest(tasks, k) && Lowest(tasks).value == tasks[k]
  {
    var k := LowestIsFirst(tasks);
  }

  // The last task is the first of those with the highest number.
  lemma HighestIsHighest(tasks: seq<Task>)
    requires tasks != []
    ensures Highest(tasks).Some? && Highest(tasks).value in tasks
    ensures forall t | t in tasks :: t.number <= Highest(tasks).value.number
    ensures exists k: nat :: FirstHighest(tasks, k) && Highest(tasks).value == tasks[k]
  {
    var k := HighestIsFirst(tasks);
  }

  // The tasks with a wanted status, in order and as often as they occur.
  lemma {:induction false} WithStatusMeans(tasks: seq<Task>, wanted: set<string>)
    ensures Subsequence(WithStatus(tasks, wanted), tasks)
    ensures forall t ::
      multiset(WithStatus(tasks, wanted))[t]
        == (if t.status.Some? && t.status.value in wanted then multiset(tasks)[t] else 0)
  {
    if tasks != [] {
      var init, last := tasks[..|tasks| - 1], tasks[|tasks| - 1];
      WithStatusMeans(init, wanted);
      assert tasks == init + [last];
      SubsequenceSnoc(WithStatus(init, wanted), init, last);
    }
  }
}
