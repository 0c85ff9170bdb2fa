// scripts/select_current_task.py: finished in-progress tasks are marked done,
// then the current task is chosen, promoting the earliest to-do if need be.
module SelectCurrentTask {
  import opened Prelude
  import opened PlanStatus

  type Updates = map<nat, string>

  datatype Applied = Applied(number: nat, fromStatus: string, toStatus: string)

  // ---- rewriting ----

  // The number of the last task heading among the lines.
  function Owner(lines: seq<Line>): Option<nat> {
    if lines == [] then None
    else
      var last := lines[|lines| - 1];
      if last.TaskHeading? then Some(last.number) else Owner(lines[..|lines| - 1])
  }

  predicate Rewrites(owner: Option<nat>, line: Line, u: Updates) {
    owner.Some? && owner.value in u && line.StatusLine? && line.status != u[owner.value]
  }

  function RewriteLine(owner: Option<nat>, line: Line, u: Updates): Line {
    if Rewrites(owner, line, u) then line.(status := u[owner.value]) else line
  }

  function Rewrite(lines: seq<Line>, u: Updates): (r: seq<Line>)
    ensures |r| == |lines|
  {
    if lines == [] then []
    else
      var init := lines[..|lines| - 1];
      Rewrite(init, u) + [RewriteLine(Owner(init), lines[|lines| - 1], u)]
  }

  // Line by line: the rewriting looks only at the heading above a line.
  lemma {:induction false} RewriteAt(lines: seq<Line>, u: Updates, k: nat)
    requires k < |lines|
    ensures Rewrite(lines, u)[k] == RewriteLine(Owner(lines[..k]), lines[k], u)
  {
    var n := |lines| - 1;
    if k < n {
      RewriteAt(lines[..n], u, k);
      assert lines[..n][..k] == lines[..k];
    }
  }

  function AppliedIn(lines: seq<Line>, u: Updates): seq<Applied> {
    if lines == [] then []
    else
      var init, last := lines[..|lines| - 1], lines[|lines| - 1];
      var owner := Owner(init);
      if Rewrites(owner, last, u) then AppliedIn(init, u) + [Applied(owner.value, last.status, u[owner.value])]
      else AppliedIn(init, u)
  }

  // ---- parsing commutes with rewriting ----

  function UpdateTask(t: Task, u: Updates): Task {
    if t.status.Some? && t.number in u then t.(status := Some(u[t.number])) else t
  }

  function UpdateAll(tasks: seq<Task>, u: Updates): (r: seq<Task>)
    ensures |r| == |tasks| && forall k | 0 <= k < |r| :: r[k] == UpdateTask(tasks[k], u)
  {
    if tasks == [] then [] else [UpdateTask(tasks[0], u)] + UpdateAll(tasks[1..], u)
  }

  // The same lines, except that status lines now say "s".
  ghost predicate Restated(body: seq<Line>, body': seq<Line>, s: string) {
    && |body'| == |body|
    && forall k | 0 <= k < |body| :: body'[k] == if body[k].StatusLine? then body[k].(status := s) else body[k]
  }

  lemma {:induction false} RestatedFields(body: seq<Line>, body': seq<Line>, s: string, first: nat)
    requires Restated(body, body', s)
    ensures LastStatus(body') == if LastStatus(body).Some? then Some(s) else None
    ensures SectionAfter(body') == SectionAfter(body)
    ensures forall kind :: CountBoxes(body', kind) == CountBoxes(body, kind)
    ensures BlockersIn(body', first) == BlockersIn(body, first)
  {
    if body != [] {
      RestatedFields(body[..|body| - 1], body'[..|body| - 1], s, first);
    }
  }

  lemma {:induction false} OwnerInTask(lines: seq<Line>, h: nat, k: nat)
    requires h < k <= |lines| && lines[h].TaskHeading?
    requires forall j | h < j < k :: !lines[j].TaskHeading?
    ensures Owner(lines[..k]) == Some(lines[h].number)
    decreases k
  {
    assert lines[..k][..k - 1] == lines[..k - 1];
    if k > h + 1 { OwnerInTask(lines, h, k - 1); }
  }

  lemma {:induction false} RewriteKeepsHeadings(lines: seq<Line>, u: Updates, i: nat)
    requires i <= |lines|
    ensures NextHeading(Rewrite(lines, u), i) == NextHeading(lines, i)
    decreases |lines| - i
  {
    if i < |lines| {
      RewriteAt(lines, u, i);
      RewriteKeepsHeadings(lines, u, i + 1);
    }
  }

  // Inside the task headed at line h, only the update for that task's number matters.
  lemma RewriteInTask(lines: seq<Line>, u: Updates, h: nat, k: nat)
    requires h < k < |lines| && lines[h].TaskHeading?
    requires forall j | h < j <= k :: !lines[j].TaskHeading?
    ensures Rewrite(lines, u)[k] ==
      if lines[h].number in u && lines[k].StatusLine? then lines[k].(status := u[lines[h].number]) else lines[k]
  {
    RewriteAt(lines, u, k);
    OwnerInTask(lines, h, k);
  }

  lemma RewriteBody(lines: seq<Line>, u: Updates, h: nat, end: nat)
    requires h < end <= |lines| && lines[h].TaskHeading?
    requires forall j | h < j < end :: !lines[j].TaskHeading?
    ensures var body, body', n := lines[h + 1..end], Rewrite(lines, u)[h + 1..end], lines[h].number;
      if n in u then Restated(body, body', u[n]) else body' == body
  {
    var r, n := Rewrite(lines, u), lines[h].number;
    forall k | h < k < end
      ensures r[k] == if n in u && lines[k].StatusLine? then lines[k].(status := u[n]) else lines[k]
    {
      RewriteInTask(lines, u, h, k);
    }
  }

  lemma RewriteTask(lines: seq<Line>, u: Updates, h: nat)
    requires h < |lines| && lines[h].TaskHeading?
    ensures Rewrite(lines, u)[h] == lines[h]
    ensures TaskAt(Rewrite(lines, u), h) == UpdateTask(TaskAt(lines, h), u)
  {
    var r, end, n := Rewrite(lines, u), NextHeading(lines, h + 1), lines[h].number;
    RewriteAt(lines, u, h);
    RewriteKeepsHeadings(lines, u, h + 1);
    RewriteBody(lines, u, h, end);
    if n in u {
      RestatedFields(lines[h + 1..end], r[h + 1..end], u[n], h + 2);
    }
  }

  // Parsing the rewritten plan gives the original tasks with only the status
  // replaced, and only for tasks that have a status line and an update.
  lemma {:induction false} ParseCommutesFrom(lines: seq<Line>, u: Updates, i: nat)
    requires i <= |lines|
    ensures TasksFrom(Rewrite(lines, u), i) == UpdateAll(TasksFrom(lines, i), u)
    decreases |lines| - i
  {
    if i < |lines| {
      ParseCommutesFrom(lines, u, i + 1);
      RewriteAt(lines, u, i);
      if lines[i].TaskHeading? {
        RewriteTask(lines, u, i);
        assert TasksFrom(lines, i)[1..] == TasksFrom(lines, i + 1);
      }
    }
  }

  lemma ParseCommutesWithRewrite(lines: seq<Line>, u: Updates)
    ensures Tasks(Rewrite(lines, u)) == UpdateAll(Tasks(lines), u)
  {
    ParseCommutesFrom(lines, u, 0);
  }

  // Nothing is reported as applied exactly when no line changes.
  lemma {:induction false} AppliedIffChanged(lines: seq<Line>, u: Updates)
    ensures AppliedIn(lines, u) == [] <==> Rewrite(lines, u) == lines
  {
    if lines != [] {
      var init, last := lines[..|lines| - 1], lines[|lines| - 1];
      AppliedIffChanged(init, u);
      AppendEqual(Rewrite(init, u), RewriteLine(Owner(init), last, u), init, last);
      assert lines == init + [last];
    }
  }

  lemma AppendEqual<T>(a: seq<T>, x: T, b: seq<T>, y: T)
    requires |a| == |b|
    ensures a + [x] == b + [y] <==> a == b && x == y
  {
    if a + [x] == b + [y] {
      assert a == (a + [x])[..|a|] == (b + [y])[..|b|] == b;
      assert x == (a + [x])[|a|] == (b + [y])[|b|] == y;
    }
  }

  // ---- selection ----

  predicate Stale(t: Task) {
    && t.Is(IN_PROGRESS) && (t.subtasks.total > 0 || t.testing.total > 0)
    && t.Clean()
  }

  function StaleUpdates(tasks: seq<Task>): Updates {
    map t | t in tasks && Stale(t) :: t.number := DONE
  }

  datatype SelectionStatus = Resolved | NeedsPlanRepair | StoryIsComplete
  datatype SelectionReason =
    MultipleOpenInProgress | ActiveInProgress | PromotedEarliestTodo | AllTasksDone | NoOpenOrTodoTaskFound

  datatype Payload = Payload(
    planPath: string, selectionStatus: SelectionStatus, selectionReason: SelectionReason,
    selectedTask: Option<Task>, normalizedTasks: seq<Applied>, openInProgress: seq<Task>,
    finalTaskStatus: Option<string>, storyComplete: bool)

  function FindNumber(tasks: seq<Task>, number: nat): Option<Task> {
    if tasks == [] then None
    else if tasks[0].number == number then Some(tasks[0])
    else FindNumber(tasks[1..], number)
  }

  function Normalized(lines: seq<Line>): seq<Line> { Rewrite(lines, StaleUpdates(Tasks(lines))) }

  function Promotion(lines: seq<Line>): Updates {
    var tasks := Tasks(lines);
    if WithStatus(tasks, {IN_PROGRESS}) == [] && EarliestTodo(tasks).Some?
    then map[EarliestTodo(tasks).value.number := IN_PROGRESS] else map[]
  }

  // The plan a run leaves behind.
  function Selected(lines: seq<Line>): seq<Line> {
    Rewrite(Normalized(lines), Promotion(Normalized(lines)))
  }

  function PayloadOf(planPath: string, lines: seq<Line>): Payload {
    var normal := Normalized(lines);
    var tasks := Tasks(normal);
    var applied := AppliedIn(lines, StaleUpdates(Tasks(lines)));
    var open := WithStatus(tasks, {IN_PROGRESS});
    var todo := EarliestTodo(tasks);
    if |open| > 1 then
      Payload(planPath, NeedsPlanRepair, MultipleOpenInProgress, None, applied, open, FinalStatus(tasks),
          StoryComplete(tasks))
    else if |open| == 1 then
      Payload(planPath, Resolved, ActiveInProgress, Some(open[0]), applied, [], FinalStatus(tasks),
          StoryComplete(tasks))
    else if todo.Some? then
      var after := Tasks(Selected(lines));
      Payload(planPath, Resolved, PromotedEarliestTodo, FindNumber(after, todo.value.number),
              applied + AppliedIn(normal, Promotion(normal)), [], FinalStatus(after), StoryComplete(after))
    else if StoryComplete(tasks) then
      Payload(planPath, StoryIsComplete, AllTasksDone, None, applied, open, FinalStatus(tasks), true)
    else
      Payload(planPath, NeedsPlanRepair, NoOpenOrTodoTaskFound, None, applied, open, FinalStatus(tasks), false)
  }

  lemma RewriteOneMore(lines: seq<Line>, u: Updates, i: nat)
    requires i < |lines|
    ensures Owner(lines[..i + 1]) == if lines[i].TaskHeading? then Some(lines[i].number) else Owner(lines[..i])
    ensures Rewrite(lines[..i + 1], u) == Rewrite(lines[..i], u) + [RewriteLine(Owner(lines[..i]), lines[i], u)]
    ensures AppliedIn(lines[..i + 1], u) ==
      if Rewrites(Owner(lines[..i]), lines[i], u)
      then AppliedIn(lines[..i], u) + [Applied(Owner(lines[..i]).value, lines[i].status, u[Owner(lines[..i]).value])]
      else AppliedIn(lines[..i], u)
  {
    assert lines[..i + 1][..i] == lines[..i];
  }

  lemma UpdateSplits<T>(s: seq<T>, i: nat, x: T)
    requires i < |s|
    ensures s[i := x][..i + 1] == s[..i] + [x]
    ensures s[i := x][i + 1..] == s[i..][1..]
  {
  }

  // The loop of rewrite_task_statuses, over the plan's list of lines.
  method RewriteLines(original: seq<Line>, updates: Updates) returns (rewritten: seq<Line>, applied: seq<Applied>)
    ensures rewritten == Rewrite(original, updates) && applied == AppliedIn(original, updates)
  {
    rewritten := original;
    applied := [];
    var currentTaskNumber: Option<nat> := None;
    var index := 0;
    while index < |original|
      invariant 0 <= index <= |original| == |rewritten|
      invariant currentTaskNumber == Owner(original[..index])
      invariant rewritten[..index] == Rewrite(original[..index], updates)
      invariant rewritten[index..] == original[index..]
      invariant applied == AppliedIn(original[..index], updates)
    {
      RewriteOneMore(original, updates, index);
      var line := rewritten[index];
      assert line == original[index];
      ghost var owner, before := currentTaskNumber, rewritten;
      if line.TaskHeading? {
        currentTaskNumber := Some(line.number);
      } else if currentTaskNumber.Some? && currentTaskNumber.value in updates && line.StatusLine? {
        var toStatus := updates[currentTaskNumber.value];
        if line.status != toStatus {
          rewritten := rewritten[index := StatusLine(line.prefix, toStatus, line.suffix)];
          applied := applied + [Applied(currentTaskNumber.value, line.status, toStatus)];
        }
      }
      assert rewritten == before[index := RewriteLine(owner, line, updates)];
      UpdateSplits(before, index, RewriteLine(owner, line, updates));
      assert original[index..][1..] == original[index + 1..];
      index := index + 1;
    }
    assert original[..index] == original && rewritten[..index] == rewritten;
  }

  // The script's run over one plan file.
  class Selector {
    const planPath: string
    var lines: seq<Line>  // the plan file

    constructor (planPath: string, lines: seq<Line>)
      ensures this.planPath == planPath && this.lines == lines
    {
      this.planPath, this.lines := planPath, lines;
    }

    method RewriteTaskStatuses(updates: Updates) returns (applied: seq<Applied>)
      modifies this
      ensures lines == Rewrite(old(lines), updates) && applied == AppliedIn(old(lines), updates)
    {
      var rewritten;
      rewritten, applied := RewriteLines(lines, updates);
      AppliedIffChanged(lines, updates);
      if |applied| > 0 {
        lines := rewritten;
      }
    }

    method Select() returns (payload: Payload)
      modifies this
      ensures lines == Selected(old(lines)) && payload == PayloadOf(planPath, old(lines))
    {
      ghost var original := lines;
      var tasks := ParsePlan(lines);
      var stale := StaleUpdates(tasks);
      var normalizedTasks := [];
      if stale != map[] {
        normalizedTasks := RewriteTaskStatuses(stale);
        tasks := ParsePlan(lines);
      } else {
        NoUpdates(original);
      }
      assert lines == Normalized(original);
      var open := WithStatus(tasks, {IN_PROGRESS});
      NoUpdates(lines);
      if |open| > 1 {
        payload := Payload(planPath, NeedsPlanRepair, MultipleOpenInProgress, None, normalizedTasks, open,
                           FinalStatus(tasks), StoryComplete(tasks));
        return;
      }
      if |open| == 1 {
        payload := Payload(planPath, Resolved, ActiveInProgress, Some(open[0]), normalizedTasks, [],
                           FinalStatus(tasks), StoryComplete(tasks));
        return;
      }
      var earliest := EarliestTodo(tasks);
      if earliest.Some? {
        var promoted := RewriteTaskStatuses(map[earliest.value.number := IN_PROGRESS]);
        normalizedTasks := normalizedTasks + promoted;
        tasks := ParsePlan(lines);
        payload := Payload(planPath, Resolved, PromotedEarliestTodo, FindNumber(tasks, earliest.value.number),
                           normalizedTasks, [], FinalStatus(tasks), StoryComplete(tasks));
        return;
      }
      if StoryComplete(tasks) {
        payload := Payload(planPath, StoryIsComplete, AllTasksDone, None, normalizedTasks, open, FinalStatus(tasks),
            true);
      } else {
        payload := Payload(planPath, NeedsPlanRepair, NoOpenOrTodoTaskFound, None, normalizedTasks, open,
            FinalStatus(tasks), false);
      }
    }
  }

  lemma NoUpdates(lines: seq<Line>)
    ensures Rewrite(lines, map[]) == lines && AppliedIn(lines, map[]) == []
  {
    AppliedIffChanged(lines, map[]);
  }
}
