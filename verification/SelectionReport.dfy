// What the selector's payload says: which lines were rewritten, why a task was
// selected or none, and what is left of the story.
module SelectionReport {
  import opened Prelude
  import opened PlanStatus
  import opened SelectCurrentTask
  import opened SelectionRuns
  import opened PlanLines

  // ---- the report of a rewrite ----

  // The lines that differ, in order.
  function Changed(before: seq<Line>, after: seq<Line>): (r: seq<nat>)
    requires |after| == |before|
    ensures forall i | 0 <= i < |r| :: r[i] < |before| && before[r[i]] != after[r[i]]
  {
    if before == [] then []
    else
      var n := |before| - 1;
      var earlier := Changed(before[..n], after[..n]);
      if before[n] != after[n] then earlier + [n] else earlier
  }

  // One report per changed line, in order: a status line below the heading of the
  // number reported, with its old and its new status.
  ghost predicate Reports(before: seq<Line>, after: seq<Line>, report: seq<Applied>) {
    && |after| == |before| && |report| == |Changed(before, after)|
    && forall i | 0 <= i < |report| :: ReportsLine(before, after, Changed(before, after)[i], report[i])
  }

  predicate ReportsLine(before: seq<Line>, after: seq<Line>, k: nat, r: Applied)
    requires k < |before| == |after|
  {
    && before[k].StatusLine? && before[k].status == r.fromStatus && r.fromStatus != r.toStatus
    && after[k] == before[k].(status := r.toStatus) && Owner(before[..k]) == Some(r.number)
  }

  lemma {:induction false} AppliedReports(lines: seq<Line>, u: Updates)
    ensures Reports(lines, Rewrite(lines, u), AppliedIn(lines, u))
  {
    if lines != [] {
      var n := |lines| - 1;
      var init, after := lines[..n], Rewrite(lines, u);
      AppliedReports(init, u);
      assert after[..n] == Rewrite(init, u);
      var changed := Changed(init, after[..n]);
      forall i | 0 <= i < |AppliedIn(init, u)| ensures ReportsLine(lines, after, changed[i], AppliedIn(init, u)[i]) {
        assert ReportsLine(init, after[..n], changed[i], AppliedIn(init, u)[i]);
        assert init[..changed[i]] == lines[..changed[i]];
      }
    }
  }

  // The report of a run is that of its normalisation followed by that of its promotion.
  lemma RunIsReported(planPath: string, lines: seq<Line>)
    ensures var report := PayloadOf(planPath, lines).normalizedTasks;
      exists i :: 0 <= i <= |report| && Reports(lines, Normalized(lines), report[..i])
               && Reports(Normalized(lines), Selected(lines), report[i..])
  {
    var normal, report := Normalized(lines), PayloadOf(planPath, lines).normalizedTasks;
    var first, second := AppliedIn(lines, StaleUpdates(Tasks(lines))), AppliedIn(normal, Promotion(normal));
    AppliedReports(lines, StaleUpdates(Tasks(lines)));
    AppliedReports(normal, Promotion(normal));
    NoUpdates(normal);
    assert report == first + second;
    assert report[..|first|] == first && report[|first|..] == second;
  }

  // ---- why a task was selected ----

  // The tasks in progress after normalisation, as positions in the plan.
  function OpenPositions(tasks: seq<Task>): set<nat> {
    set k: nat | k < |tasks| && tasks[k].Is(IN_PROGRESS)
  }

  lemma {:induction false} OpenCount(tasks: seq<Task>)
    ensures |WithStatus(tasks, {IN_PROGRESS})| == |OpenPositions(tasks)|
  {
    if tasks == [] {
      assert OpenPositions(tasks) == {};
    } else {
      var n := |tasks| - 1;
      OpenCount(tasks[..n]);
      assert OpenPositions(tasks) == OpenPositions(tasks[..n]) + if tasks[n].Is(IN_PROGRESS) then {n} else {};
    }
  }

  // The branch taken, from the normalised tasks and whether the story is complete.
  function Reason(tasks: seq<Task>, complete: bool): (SelectionStatus, SelectionReason) {
    var open := |OpenPositions(tasks)|;
    if open > 1 then (NeedsPlanRepair, MultipleOpenInProgress)
    else if open == 1 then (Resolved, ActiveInProgress)
    else if exists k :: 0 <= k < |tasks| && tasks[k].Is(TO_DO) then (Resolved, PromotedEarliestTodo)
    else if complete then (StoryIsComplete, AllTasksDone)
    else (NeedsPlanRepair, NoOpenOrTodoTaskFound)
  }

  lemma SomeTodo(tasks: seq<Task>)
    ensures EarliestTodo(tasks).Some? <==> exists k :: 0 <= k < |tasks| && tasks[k].Is(TO_DO)
  {
    EarliestTodoIsLowest(tasks);
    if EarliestTodo(tasks).Some? {
      var k :| 0 <= k < |tasks| && tasks[k] == EarliestTodo(tasks).value;
    }
  }

  // The reason a run gives, and the tasks it lists as open: all of them when there is
  // more than one, and none otherwise.
  lemma ReasonGiven(planPath: string, lines: seq<Line>)
    ensures var tasks, payload := Tasks(Normalized(lines)), PayloadOf(planPath, lines);
      && (payload.selectionStatus, payload.selectionReason) == Reason(tasks, payload.storyComplete)
      && payload.planPath == planPath && |payload.openInProgress| != 1
      && (payload.openInProgress != [] <==> |OpenPositions(tasks)| > 1)
      && Subsequence(payload.openInProgress, tasks)
      && (payload.openInProgress != [] ==>
            forall t | t in tasks && t.Is(IN_PROGRESS) :: multiset(payload.openInProgress)[t] == multiset(tasks)[t])
  {
    var tasks := Tasks(Normalized(lines));
    OpenCount(tasks);
    SomeTodo(tasks);
    WithStatusMeans(tasks, {IN_PROGRESS});
  }

  // The plan a run leaves is the normalised one unless it promotes.
  lemma SelectedUnlessPromoted(lines: seq<Line>)
    ensures var tasks := Tasks(Normalized(lines));
      (OpenPositions(tasks) != {} || (forall k | 0 <= k < |tasks| :: !tasks[k].Is(TO_DO))) ==>
        Selected(lines) == Normalized(lines)
  {
    var tasks := Tasks(Normalized(lines));
    OpenCount(tasks);
    SomeTodo(tasks);
    if OpenPositions(tasks) != {} {
      var k :| k in OpenPositions(tasks);
      assert |OpenPositions(tasks)| > 0;
    }
    NoUpdates(Normalized(lines));
  }

  // A task to do, with no lower number among those to do.
  ghost predicate EarliestAt(tasks: seq<Task>, k: nat) {
    && k < |tasks| && tasks[k].Is(TO_DO)
    && (forall j | 0 <= j < |tasks| && tasks[j].Is(TO_DO) :: tasks[k].number <= tasks[j].number)
  }

  // The task selected: the one in progress, or after a promotion the first of the
  // earliest to-do's number; otherwise none.
  lemma TaskSelected(planPath: string, lines: seq<Line>)
    ensures var tasks, payload := Tasks(Normalized(lines)), PayloadOf(planPath, lines);
      match payload.selectionReason
      case ActiveInProgress =>
        exists k :: k in OpenPositions(tasks) && payload.selectedTask == Some(tasks[k])
      case PromotedEarliestTodo =>
        exists k: nat ::
          EarliestAt(tasks, k) && FirstOfNumber(Tasks(Selected(lines)), tasks[k].number, payload.selectedTask)
      case _ => payload.selectedTask == None
  {
    var tasks, payload := Tasks(Normalized(lines)), PayloadOf(planPath, lines);
    if payload.selectionReason.ActiveInProgress? {
      WithStatusMember(tasks, {IN_PROGRESS}, payload.selectedTask.value);
      var k :| 0 <= k < |tasks| && tasks[k] == payload.selectedTask.value;
      assert k in OpenPositions(tasks);
    } else if payload.selectionReason.PromotedEarliestTodo? {
      EarliestTodoIsLowest(tasks);
      var k :| 0 <= k < |tasks| && tasks[k] == EarliestTodo(tasks).value;
      assert EarliestAt(tasks, k);
      FindNumberIsFirst(Tasks(Selected(lines)), tasks[k].number);
    }
  }

  ghost predicate FirstOfNumber(tasks: seq<Task>, n: nat, found: Option<Task>) {
    if found.None? then forall t | t in tasks :: t.number != n
    else
      exists k :: 0 <= k < |tasks| && tasks[k] == found.value && tasks[k].number == n
               && forall j | 0 <= j < k :: tasks[j].number != n
  }

  lemma {:induction false} FindNumberIsFirst(tasks: seq<Task>, n: nat)
    ensures FirstOfNumber(tasks, n, FindNumber(tasks, n))
  {
    if tasks != [] && tasks[0].number != n {
      FindNumberIsFirst(tasks[1..], n);
      var found := FindNumber(tasks, n);
      if found.Some? {
        var k :| 0 <= k < |tasks[1..]| && tasks[1..][k] == found.value && tasks[1..][k].number == n
              && forall j | 0 <= j < k :: tasks[1..][j].number != n;
        assert tasks[k + 1] == found.value && forall j | 0 <= j < k + 1 :: tasks[j].number != n by {
          assert forall j | 1 <= j < k + 1 :: tasks[j] == tasks[1..][j - 1];
        }
      }
    }
  }

  // ---- what is left of the story ----

  // The payload judges the plan the run leaves: complete if every task's lines say done
  // with nothing left to do, and the status of the last task, the first of those with
  // the highest number.
  lemma StoryReported(planPath: string, lines: seq<Line>)
    ensures var left, payload := Selected(lines), PayloadOf(planPath, lines);
      && (forall t | t in Tasks(left) :: t.endLine <= |left|)
      && (payload.storyComplete <==>
            Tasks(left) != [] && forall t | t in Tasks(left) :: SaysStatus(left, t, DONE) && NothingOpen(left, t))
      && (Tasks(left) == [] ==> payload.finalTaskStatus == None)
      && (Tasks(left) != [] ==>
            exists k: nat :: FirstHighest(Tasks(left), k) && payload.finalTaskStatus == Tasks(left)[k].status)
  {
    var left := Selected(lines);
    var tasks := Tasks(Normalized(lines));
    StoryCompleteMeans(left);
    OpenCount(tasks);
    SomeTodo(tasks);
    if WithStatus(tasks, {IN_PROGRESS}) != [] { assert OpenPositions(tasks) != {}; }
    SelectedUnlessPromoted(lines);
    if Tasks(left) != [] { HighestIsHighest(Tasks(left)); }
  }

  // ---- which lines a promotion changes ----

  // Exactly the status lines of the tasks that carry the earliest to-do's number, when
  // nothing is in progress; and they then say in progress.
  lemma PromotedLine(lines: seq<Line>, k: nat)
    requires k < |lines|
    ensures var tasks := Tasks(lines);
      Rewrite(lines, Promotion(lines))[k] ==
        if OpenPositions(tasks) == {} && lines[k].StatusLine? && InEarliestNumber(tasks, k)
        then lines[k].(status := IN_PROGRESS) else lines[k]
  {
    var tasks, u := Tasks(lines), Promotion(lines);
    RewriteAt(lines, u, k);
    OpenCount(tasks);
    assert OpenPositions(tasks) == {} <==> |OpenPositions(tasks)| == 0;
    EarliestTodoIsLowest(tasks);
    if lines[k].StatusLine? && EarliestTodo(tasks).Some? {
      OwnerIsTask(lines, k, EarliestTodo(tasks).value.number);
      EarliestNumber(tasks, k);
    } else if lines[k].StatusLine? {
      SomeTodo(tasks);
    }
  }

  ghost predicate InEarliestNumber(tasks: seq<Task>, k: nat) {
    exists t, j: nat :: t in tasks && InTask(t, k) && EarliestAt(tasks, j) && t.number == tasks[j].number
  }

  lemma EarliestNumber(tasks: seq<Task>, k: nat)
    requires EarliestTodo(tasks).Some?
    ensures InEarliestNumber(tasks, k)
       <==> exists t :: t in tasks && InTask(t, k) && t.number == EarliestTodo(tasks).value.number
  {
    EarliestTodoIsLowest(tasks);
    var e := EarliestTodo(tasks).value;
    var i: nat :| i < |tasks| && tasks[i] == e;
    assert EarliestAt(tasks, i);
    if t :| t in tasks && InTask(t, k) && t.number == e.number { assert t.number == tasks[i].number; }
  }
}
