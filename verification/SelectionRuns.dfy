// What one run of the task selector does to the tasks, and where repeated runs end.
module SelectionRuns {
  import opened Prelude
  import opened PlanStatus
  import opened SelectCurrentTask

  predicate DistinctNumbers(tasks: seq<Task>) {
    forall i, j | 0 <= i < j < |tasks| :: tasks[i].number != tasks[j].number
  }

  // ---- normalisation ----

  // The number of a stale task.
  predicate StaleNumber(tasks: seq<Task>, n: nat) { exists t :: t in tasks && Stale(t) && t.number == n }

  // Normalisation marks done every task that has a status and a stale task's number.
  lemma NormalizedTasks(lines: seq<Line>)
    ensures var before, after := Tasks(lines), Tasks(Normalized(lines));
      && |after| == |before|
      && forall k | 0 <= k < |before| ::
           after[k] == if before[k].status.Some? && StaleNumber(before, before[k].number)
                       then before[k].(status := Some(DONE)) else before[k]
  {
    var before, u := Tasks(lines), StaleUpdates(Tasks(lines));
    ParseCommutesWithRewrite(lines, u);
    assert forall n :: n in u <==> StaleNumber(before, n);
  }

  // Whoever shares a stale task's number and has a status is stale too, or done.
  predicate StaleNumbersAgree(tasks: seq<Task>) {
    forall s, t | s in tasks && t in tasks && Stale(s) && t.number == s.number && t.status.Some? ::
        Stale(t) || t.Is(DONE)
  }

  // That is exactly when normalisation marks done the stale tasks (in progress, with
  // boxes, none of them unchecked, no live blocker) and leaves every other task alone.
  lemma NormalizationIsExact(lines: seq<Line>)
    ensures var before, after := Tasks(lines), Tasks(Normalized(lines));
      (forall k | 0 <= k < |before| :: k < |after|
         && after[k] == if Stale(before[k]) then before[k].(status := Some(DONE)) else before[k])
        <==> StaleNumbersAgree(before)
  {
    var before, after := Tasks(lines), Tasks(Normalized(lines));
    NormalizedTasks(lines);
    if StaleNumbersAgree(before) {
      forall k | 0 <= k < |before|
        ensures after[k] == if Stale(before[k]) then before[k].(status := Some(DONE)) else before[k]
      {
        assert before[k] in before;
      }
    } else {
      var s, t :| s in before && t in before && Stale(s) && t.number == s.number && t.status.Some? && !Stale(t)
          && !t.Is(DONE);
      var k :| 0 <= k < |before| && before[k] == t;
      assert after[k].Is(DONE);
    }
  }

  lemma DistinctNumbersAgree(tasks: seq<Task>)
    requires DistinctNumbers(tasks)
    ensures StaleNumbersAgree(tasks)
  {
    forall s, t | s in tasks && t in tasks && t.number == s.number ensures s == t {
      var i :| 0 <= i < |tasks| && tasks[i] == s;
      var j :| 0 <= j < |tasks| && tasks[j] == t;
      assert i == j;
    }
  }

  // ---- promotion ----

  lemma EarliestTodoIsLowest(tasks: seq<Task>)
    ensures EarliestTodo(tasks).None? <==> forall t | t in tasks :: !t.Is(TO_DO)
    ensures EarliestTodo(tasks).Some? ==>
      && EarliestTodo(tasks).value in tasks && EarliestTodo(tasks).value.Is(TO_DO)
      && forall t | t in tasks && t.Is(TO_DO) :: EarliestTodo(tasks).value.number <= t.number
  {
    var todos := WithStatus(tasks, {TO_DO});
    forall t ensures t in todos <==> t in tasks && t.Is(TO_DO) {
      WithStatusMember(tasks, {TO_DO}, t);
    }
    if todos != [] {
      LowestIsLowest(todos);
    }
  }

  lemma OpenIffInProgress(tasks: seq<Task>)
    ensures WithStatus(tasks, {IN_PROGRESS}) == [] <==> forall t | t in tasks :: !t.Is(IN_PROGRESS)
  {
    var open := WithStatus(tasks, {IN_PROGRESS});
    forall t ensures t in open <==> t in tasks && t.Is(IN_PROGRESS) {
      WithStatusMember(tasks, {IN_PROGRESS}, t);
    }
    if open != [] { assert open[0] in open; }
  }

  // When a promotion happens: nothing is in progress and something is to do.
  lemma PromotionCondition(lines: seq<Line>)
    ensures Promotion(lines) != map[] <==>
      (forall t | t in Tasks(lines) :: !t.Is(IN_PROGRESS)) && (exists t :: t in Tasks(lines) && t.Is(TO_DO))
    ensures Promotion(lines) != map[] ==>
      && EarliestTodo(Tasks(lines)).Some? && EarliestTodo(Tasks(lines)).value in Tasks(lines)
      && EarliestTodo(Tasks(lines)).value.Is(TO_DO)
      && Promotion(lines) == map[EarliestTodo(Tasks(lines)).value.number := IN_PROGRESS]
  {
    EarliestTodoIsLowest(Tasks(lines));
    OpenIffInProgress(Tasks(lines));
    var e := EarliestTodo(Tasks(lines));
    if e.Some? {
      assert e.value.number in map[e.value.number := IN_PROGRESS];
    }
  }

  // A promotion puts in progress every task of the earliest to-do's number that has a status.
  lemma PromotedTasks(lines: seq<Line>)
    requires Promotion(lines) != map[]
    ensures var before, after := Tasks(lines), Tasks(Rewrite(lines, Promotion(lines)));
      && |after| == |before| && EarliestTodo(before).Some?
      && forall k | 0 <= k < |before| ::
           after[k] == if before[k].status.Some? && before[k].number == EarliestTodo(before).value.number
                       then before[k].(status := Some(IN_PROGRESS)) else before[k]
  {
    PromotionCondition(lines);
    ParseCommutesWithRewrite(lines, Promotion(lines));
  }

  // It changes exactly one task, the lowest-numbered to-do, if and only if no other
  // task of its number has a status.
  lemma PromotionIsExact(lines: seq<Line>)
    requires Promotion(lines) != map[]
    ensures EarliestTodo(Tasks(lines)).Some?
    ensures var before, after := Tasks(lines), Tasks(Rewrite(lines, Promotion(lines)));
      var e := EarliestTodo(before).value;
      && (forall t | t in before && t.Is(TO_DO) :: e.number <= t.number)
      && ((forall k | 0 <= k < |before| :: k < |after|
             && after[k] == if before[k] == e then e.(status := Some(IN_PROGRESS)) else before[k])
          <==> (forall t | t in before && t.number == e.number && t.status.Some? :: t == e))
  {
    var before, after := Tasks(lines), Tasks(Rewrite(lines, Promotion(lines)));
    PromotionCondition(lines);
    EarliestTodoIsLowest(before);
    PromotedTasks(lines);
    var e := EarliestTodo(before).value;
    if t :| t in before && t.number == e.number && t.status.Some? && t != e {
      var k :| 0 <= k < |before| && before[k] == t;
      assert after[k].Is(IN_PROGRESS) && !t.Is(IN_PROGRESS);
    } else {
      forall k | 0 <= k < |before|
        ensures after[k] == if before[k] == e then e.(status := Some(IN_PROGRESS)) else before[k]
      {
        assert before[k] in before;
      }
    }
  }

  // ---- counting ----

  function Weight(t: Task): nat { if t.Is(TO_DO) then 2 else if t.Is(IN_PROGRESS) then 1 else 0 }

  // Twice the to-do tasks plus the tasks in progress.
  function Measure(tasks: seq<Task>): nat {
    if tasks == [] then 0 else Weight(tasks[0]) + Measure(tasks[1..])
  }

  function Having(tasks: seq<Task>, status: string): nat {
    if tasks == [] then 0 else (if tasks[0].Is(status) then 1 else 0) + Having(tasks[1..], status)
  }

  // What the tasks whose number is updated weigh.
  function UpdatedWeight(tasks: seq<Task>, u: Updates): nat {
    if tasks == [] then 0
    else (if tasks[0].number in u then Weight(tasks[0]) else 0) + UpdatedWeight(tasks[1..], u)
  }

  // The tasks of a number that are to do, and those with another status.
  function TodosOf(tasks: seq<Task>, n: nat): nat {
    if tasks == [] then 0 else (if tasks[0].number == n && tasks[0].Is(TO_DO) then 1 else 0) + TodosOf(tasks[1..], n)
  }

  function OthersOf(tasks: seq<Task>, n: nat): nat {
    if tasks == [] then 0
    else
      (if tasks[0].number == n && tasks[0].status.Some? && !tasks[0].Is(TO_DO) then 1 else 0) + OthersOf(tasks[1..], n)
  }

  lemma UpdateTail(tasks: seq<Task>, u: Updates)
    requires tasks != []
    ensures UpdateAll(tasks, u)[0] == UpdateTask(tasks[0], u) && UpdateAll(tasks, u)[1..] == UpdateAll(tasks[1..], u)
  {
  }

  // Marking tasks done takes away exactly their weight, and no task becomes to do or
  // in progress.
  lemma {:induction false} DoneWeighsNothing(tasks: seq<Task>, u: Updates)
    requires forall n | n in u :: u[n] == DONE
    ensures Measure(UpdateAll(tasks, u)) + UpdatedWeight(tasks, u) == Measure(tasks)
    ensures Having(UpdateAll(tasks, u), TO_DO) <= Having(tasks, TO_DO)
    ensures Having(UpdateAll(tasks, u), IN_PROGRESS) <= Having(tasks, IN_PROGRESS)
  {
    if tasks != [] {
      assert |TO_DO| == 9 && |DONE| == 8 && |IN_PROGRESS| == 15;
      UpdateTail(tasks, u);
      DoneWeighsNothing(tasks[1..], u);
    }
  }

  // With a task in progress among them, fewer are in progress afterwards.
  lemma {:induction false} DoneLowersInProgress(tasks: seq<Task>, u: Updates, k: nat)
    requires forall n | n in u :: u[n] == DONE
    requires k < |tasks| && tasks[k].Is(IN_PROGRESS) && tasks[k].number in u
    ensures Having(UpdateAll(tasks, u), IN_PROGRESS) < Having(tasks, IN_PROGRESS)
  {
    assert |DONE| == 8 && |IN_PROGRESS| == 15;
    UpdateTail(tasks, u);
    DoneWeighsNothing(tasks[1..], u);
    if k > 0 { DoneLowersInProgress(tasks[1..], u, k - 1); }
  }

  // Putting a number's tasks in progress takes one off for each that was to do and
  // adds one for each that had another status.
  lemma {:induction false} PromotionWeighs(tasks: seq<Task>, n: nat)
    requires forall t | t in tasks :: !t.Is(IN_PROGRESS)
    ensures var after := UpdateAll(tasks, map[n := IN_PROGRESS]);
      && Measure(after) + TodosOf(tasks, n) == Measure(tasks) + OthersOf(tasks, n)
      && Having(after, TO_DO) + TodosOf(tasks, n) == Having(tasks, TO_DO)
  {
    if tasks != [] {
      assert |TO_DO| == 9 && |IN_PROGRESS| == 15;
      UpdateTail(tasks, map[n := IN_PROGRESS]);
      PromotionWeighs(tasks[1..], n);
    }
  }

  lemma {:induction false} TodoCounts(tasks: seq<Task>, k: nat)
    requires k < |tasks| && tasks[k].Is(TO_DO)
    ensures TodosOf(tasks, tasks[k].number) >= 1
  {
    if k > 0 { TodoCounts(tasks[1..], k - 1); }
  }

  lemma {:induction false} HavingAtMostAll(tasks: seq<Task>, status: string)
    ensures Having(tasks, status) <= |tasks|
  {
    if tasks != [] { HavingAtMostAll(tasks[1..], status); }
  }

  // ---- one run ----

  lemma NormalizationLowers(lines: seq<Line>)
    ensures var before, after := Tasks(lines), Tasks(Normalized(lines));
      && |after| == |before|
      && Measure(after) + UpdatedWeight(before, StaleUpdates(before)) == Measure(before)
      && Having(after, TO_DO) <= Having(before, TO_DO) && Having(after, IN_PROGRESS) <= Having(before, IN_PROGRESS)
      && ((exists t :: t in before && Stale(t)) ==> Having(after, IN_PROGRESS) < Having(before, IN_PROGRESS))
  {
    var before, u := Tasks(lines), StaleUpdates(Tasks(lines));
    ParseCommutesWithRewrite(lines, u);
    DoneWeighsNothing(before, u);
    if t :| t in before && Stale(t) {
      var k :| 0 <= k < |before| && before[k] == t;
      DoneLowersInProgress(before, u, k);
    }
  }

  lemma NothingStale(lines: seq<Line>)
    requires forall t | t in Tasks(lines) :: !Stale(t)
    ensures Normalized(lines) == lines
  {
    assert StaleUpdates(Tasks(lines)) == map[];
    NoUpdates(lines);
  }

  lemma PromotionLowers(lines: seq<Line>)
    requires Promotion(lines) != map[]
    ensures EarliestTodo(Tasks(lines)).Some?
    ensures var before, after := Tasks(lines), Tasks(Rewrite(lines, Promotion(lines)));
      var n := EarliestTodo(before).value.number;
      && |after| == |before| && TodosOf(before, n) >= 1
      && Measure(after) + TodosOf(before, n) == Measure(before) + OthersOf(before, n)
      && Having(after, TO_DO) < Having(before, TO_DO)
  {
    var before := Tasks(lines);
    PromotionCondition(lines);
    ParseCommutesWithRewrite(lines, Promotion(lines));
    var e := EarliestTodo(before).value;
    PromotionWeighs(before, e.number);
    var k :| 0 <= k < |before| && before[k] == e;
    TodoCounts(before, k);
  }

  function Times(a: nat, n: nat): nat { if n == 0 then 0 else a + Times(a, n - 1) }

  lemma {:induction false} TimesGrows(a: nat, m: nat, n: nat)
    requires m < n
    ensures Times(a, m) + a <= Times(a, n)
  {
    if m < n - 1 { TimesGrows(a, m, n - 1); }
  }

  // A measure that no shared number can upset: to-do tasks first, then those in progress.
  function Rank(tasks: seq<Task>): nat { Times(|tasks| + 1, Having(tasks, TO_DO)) + Having(tasks, IN_PROGRESS) }

  lemma RankDrops(before: seq<Task>, after: seq<Task>)
    requires |after| == |before|
    requires Having(after, TO_DO) < Having(before, TO_DO)
          || (Having(after, TO_DO) == Having(before, TO_DO) && Having(after, IN_PROGRESS) < Having(before, IN_PROGRESS))
    ensures Rank(after) < Rank(before)
  {
    HavingAtMostAll(after, IN_PROGRESS);
    if Having(after, TO_DO) < Having(before, TO_DO) {
      TimesGrows(|before| + 1, Having(after, TO_DO), Having(before, TO_DO));
    }
  }

  lemma NormalizationRank(lines: seq<Line>)
    requires exists t :: t in Tasks(lines) && Stale(t)
    ensures Rank(Tasks(Normalized(lines))) < Rank(Tasks(lines))
  {
    NormalizationLowers(lines);
    RankDrops(Tasks(lines), Tasks(Normalized(lines)));
  }

  lemma PromotionRank(lines: seq<Line>)
    requires Promotion(lines) != map[]
    ensures Rank(Tasks(Rewrite(lines, Promotion(lines)))) < Rank(Tasks(lines))
  {
    PromotionLowers(lines);
    RankDrops(Tasks(lines), Tasks(Rewrite(lines, Promotion(lines))));
  }

  // For every plan: it is a fixed point exactly when no task is stale and either
  // something is in progress or nothing is to do; otherwise a run lowers the rank.
  lemma RunSettles(lines: seq<Line>)
    ensures Selected(lines) == lines || Rank(Tasks(Selected(lines))) < Rank(Tasks(lines))
    ensures Selected(lines) == lines <==>
      && (forall t | t in Tasks(lines) :: !Stale(t))
      && ((exists t :: t in Tasks(lines) && t.Is(IN_PROGRESS)) || (forall t | t in Tasks(lines) :: !t.Is(TO_DO)))
  {
    var normal := Normalized(lines);
    PromotionCondition(normal);
    if exists t :: t in Tasks(lines) && Stale(t) { NormalizationRank(lines); } else { NothingStale(lines); }
    if Promotion(normal) != map[] { PromotionRank(normal); } else { NoUpdates(normal); }
  }

  // What normalisation takes off, and what a promotion then adds or takes off.
  predicate PromotionPays(lines: seq<Line>) {
    var before, normal := Tasks(lines), Tasks(Normalized(lines));
    EarliestTodo(normal).Some? ==>
      var n := EarliestTodo(normal).value.number;
      OthersOf(normal, n) < TodosOf(normal, n) + UpdatedWeight(before, StaleUpdates(before))
  }

  // A run leaves the plan unchanged or strictly lowers twice the to-do plus the
  // in-progress tasks, if and only if a promotion re-opens fewer tasks of its number
  // than it takes on together with what normalisation takes off.
  lemma RunDecreases(lines: seq<Line>)
    ensures (Selected(lines) == lines || Measure(Tasks(Selected(lines))) < Measure(Tasks(lines)))
       <==> (Promotion(Normalized(lines)) == map[] || PromotionPays(lines))
  {
    var normal := Normalized(lines);
    NormalizationLowers(lines);
    if Promotion(normal) != map[] {
      PromotionLowers(normal);
      PromotionRank(normal);
      RunSettles(lines);
      if forall t | t in Tasks(lines) :: !Stale(t) { NothingStale(lines); }
    } else {
      NoUpdates(normal);
      if t :| t in Tasks(lines) && Stale(t) { StaleWeighs(lines, t); } else { NothingStale(lines); }
    }
  }

  lemma {:induction false} UpdatedWeighs(tasks: seq<Task>, u: Updates, k: nat)
    requires k < |tasks| && tasks[k].number in u
    ensures UpdatedWeight(tasks, u) >= Weight(tasks[k])
  {
    if k > 0 { UpdatedWeighs(tasks[1..], u, k - 1); }
  }

  lemma StaleWeighs(lines: seq<Line>, t: Task)
    requires t in Tasks(lines) && Stale(t)
    ensures UpdatedWeight(Tasks(lines), StaleUpdates(Tasks(lines))) >= 1
  {
    var tasks := Tasks(lines);
    assert |TO_DO| == 9 && |IN_PROGRESS| == 15;
    var k :| 0 <= k < |tasks| && tasks[k] == t;
    UpdatedWeighs(tasks, StaleUpdates(tasks), k);
  }

  // Distinct numbers are enough for it.
  lemma DistinctNumbersPay(lines: seq<Line>)
    requires DistinctNumbers(Tasks(lines))
    ensures Promotion(Normalized(lines)) == map[] || PromotionPays(lines)
  {
    var normal := Tasks(Normalized(lines));
    NormalizedTasks(lines);
    if Promotion(Normalized(lines)) != map[] {
      PromotionLowers(Normalized(lines));
      PromotionCondition(Normalized(lines));
      var e := EarliestTodo(normal).value;
      var k :| 0 <= k < |normal| && normal[k] == e;
      NoOthers(normal, e.number);
    }
  }

  lemma {:induction false} NoOthers(tasks: seq<Task>, n: nat)
    requires forall t | t in tasks && t.number == n && t.status.Some? :: t.Is(TO_DO)
    ensures OthersOf(tasks, n) == 0
  {
    if tasks != [] { NoOthers(tasks[1..], n); }
  }

  // ---- repeated runs ----

  function Iterate(lines: seq<Line>, n: nat): seq<Line> {
    if n == 0 then lines else Selected(Iterate(lines, n - 1))
  }

  lemma {:induction false} RunsApproachFixedPoint(lines: seq<Line>, n: nat)
    ensures Selected(Iterate(lines, n)) == Iterate(lines, n) || Rank(Tasks(Iterate(lines, n))) + n <= Rank(Tasks(lines))
  {
    if n > 0 {
      RunsApproachFixedPoint(lines, n - 1);
      RunSettles(Iterate(lines, n - 1));
    }
  }

  // Repeated runs settle on every plan, after at most Rank(...) of them.
  lemma RunsReachFixedPoint(lines: seq<Line>, n: nat)
    requires n >= Rank(Tasks(lines))
    ensures Selected(Iterate(lines, n)) == Iterate(lines, n)
  {
    RunsApproachFixedPoint(lines, n);
    RunSettles(Iterate(lines, n));
  }

  // Where a run resolves and changes nothing, exactly one task is in progress,
  // it is the selected one, and it is not stale.
  lemma ResolvedFixedPoint(planPath: string, lines: seq<Line>)
    requires Selected(lines) == lines && PayloadOf(planPath, lines).selectionStatus.Resolved?
    ensures var open := WithStatus(Tasks(lines), {IN_PROGRESS});
      |open| == 1 && PayloadOf(planPath, lines).selectedTask == Some(open[0]) && !Stale(open[0])
  {
    RunSettles(lines);
    NothingStale(lines);
    var open := WithStatus(Tasks(lines), {IN_PROGRESS});
    OpenIffInProgress(Tasks(lines));
    EarliestTodoIsLowest(Tasks(lines));
    if |open| == 1 {
      WithStatusMember(Tasks(lines), {IN_PROGRESS}, open[0]);
    }
  }

  // ---- plans with a shared number ----

  // Two tasks that share a number, each with one status line.
  function SharedPlan(first: string, second: string): seq<Line> {
    [TaskHeading(1, "a"), StatusLine("- Task Status: ", first, ""),
     TaskHeading(1, "b"), StatusLine("- Task Status: ", second, "")]
  }

  function SharedTasks(first: string, second: string): seq<Task> {
    [Task(1, "a", 1, 2, Some(first), Boxes(0, 0, 0), Boxes(0, 0, 0), []),
     Task(1, "b", 3, 4, Some(second), Boxes(0, 0, 0), Boxes(0, 0, 0), [])]
  }

  lemma SingleLine(line: Line)
    requires line.StatusLine?
    ensures LastStatus([line]) == Some(line.status) && CountBoxes([line], Subtasks) == Boxes(0, 0, 0)
    ensures CountBoxes([line], Testing) == Boxes(0, 0, 0) && forall n: nat :: BlockersIn([line], n) == []
  {
    assert [line][..0] == [];
  }

  lemma SharedPlanParses(first: string, second: string)
    ensures Tasks(SharedPlan(first, second)) == SharedTasks(first, second)
  {
    var lines, tasks := SharedPlan(first, second), SharedTasks(first, second);
    HeadingIsNext(lines, 1, 2);
    HeadingIsNext(lines, 3, 4);
    SingleLine(lines[1]);
    SingleLine(lines[3]);
    assert lines[1..2] == [lines[1]] && lines[3..4] == [lines[3]];
    assert TaskAt(lines, 0) == tasks[0] && TaskAt(lines, 2) == tasks[1];
    TasksSkip(lines, 3, 4);
    assert TasksFrom(lines, 2) == [tasks[1]];
    TasksSkip(lines, 1, 2);
  }

  lemma SharedIsNormal(first: string, second: string)
    ensures Normalized(SharedPlan(first, second)) == SharedPlan(first, second)
  {
    SharedPlanParses(first, second);
    assert StaleUpdates(SharedTasks(first, second)) == map[];
    NoUpdates(SharedPlan(first, second));
  }

  lemma SharedIsPromoted(second: string)
    requires second == TO_DO || second == DONE
    ensures Promotion(SharedPlan(TO_DO, second)) == map[1 := IN_PROGRESS]
  {
    var tasks := SharedTasks(TO_DO, second);
    assert |TO_DO| == 9 && |DONE| == 8 && |IN_PROGRESS| == 15;
    SharedPlanParses(TO_DO, second);
    PromotionCondition(SharedPlan(TO_DO, second));
    assert tasks[0] in tasks && tasks[0].Is(TO_DO) && forall t | t in tasks :: t.number == 1 && !t.Is(IN_PROGRESS);
  }

  // Promoting the shared number puts both tasks in progress.
  lemma SharedPlanPromotes(second: string)
    requires second == TO_DO || second == DONE
    ensures Tasks(Selected(SharedPlan(TO_DO, second))) == SharedTasks(IN_PROGRESS, IN_PROGRESS)
  {
    SharedPlanParses(TO_DO, second);
    SharedIsNormal(TO_DO, second);
    SharedIsPromoted(second);
    ParseCommutesWithRewrite(SharedPlan(TO_DO, second), map[1 := IN_PROGRESS]);
  }

  lemma SharedMeasure(first: string, second: string)
    ensures var tasks := SharedTasks(first, second);
      Measure(tasks) == Weight(tasks[0]) + Weight(tasks[1])
  {
    var tasks := SharedTasks(first, second);
    assert tasks[1..] == [tasks[1]] && tasks[1..][1..] == [];
  }

  // Distinct numbers matter: promoting a number two tasks share re-opens a done
  // task, and the measure does not drop although the plan changes.
  lemma SharedNumberReopens()
    ensures exists lines: seq<Line> ::
      Selected(lines) != lines && Measure(Tasks(Selected(lines))) == Measure(Tasks(lines))
  {
    var lines := SharedPlan(TO_DO, DONE);
    assert |TO_DO| == 9 && |DONE| == 8 && |IN_PROGRESS| == 15;
    SharedPlanParses(TO_DO, DONE);
    SharedPlanPromotes(DONE);
    SharedMeasure(TO_DO, DONE);
    SharedMeasure(IN_PROGRESS, IN_PROGRESS);
    assert Tasks(Selected(lines))[1].status != Tasks(lines)[1].status;
  }
}
