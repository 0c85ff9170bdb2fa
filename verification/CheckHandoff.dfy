// scripts/check_current_task_handoff.py: is the handoff the selector wrote still
// the state of the plan? And the agreement between the two scripts.
module CheckHandoff {
  import opened Prelude
  import opened PlanStatus
  import opened SelectCurrentTask
  import opened SelectionRuns
  import opened PlanLines
  import opened SelectionReport

  // The persisted JSON: a field is None when it is absent, blank or of another type.
  datatype Persisted = Persisted(
    planPath: Option<string>, selectionStatus: Option<SelectionStatus>, selectedTask: Option<Task>)

  datatype Reason =
    | InvalidCurrentPlanHandoff | MissingOrInvalidCurrentTaskHandoff | PlanStatusFailed
    | PlanPathMismatch | StoryIsAlreadyComplete | SelectionNotResolved | ActiveTaskCountMismatch
    | PersistedSelectedTaskMissing | ActiveSelectedTaskMissing | SelectedTaskMismatch
    | ValidResolvedCurrentTaskHandoff

  // A task is recognised by its number, title and status.
  function TaskSignature(t: Task): (nat, string, Option<string>) { (t.number, t.title, t.status) }

  // "scope" is the plan path of a valid current-plan handoff, "plan" the plan's
  // lines when they could be read, "resolve" makes paths comparable.
  function HandoffReason(
    scope: Option<string>, persisted: Option<Persisted>, plan: Option<seq<Line>>, resolve: string -> string): Reason
  {
    if scope.None? then InvalidCurrentPlanHandoff
    else if persisted.None? then MissingOrInvalidCurrentTaskHandoff
    else if plan.None? then PlanStatusFailed
    else
      var tasks := Tasks(plan.value);
      var open := WithStatus(tasks, {IN_PROGRESS});
      var active := SelectActive(tasks);
      var saved := persisted.value;
      if saved.planPath.None? || resolve(saved.planPath.value) != resolve(scope.value) then PlanPathMismatch
      else if StoryComplete(tasks) then StoryIsAlreadyComplete
      else if saved.selectionStatus != Some(Resolved) then SelectionNotResolved
      else if |open| != 1 then ActiveTaskCountMismatch
      else if saved.selectedTask.None? then PersistedSelectedTaskMissing
      else if active.None? then ActiveSelectedTaskMissing
      else if TaskSignature(saved.selectedTask.value) != TaskSignature(active.value) then SelectedTaskMismatch
      else ValidResolvedCurrentTaskHandoff
  }

  // The saved selection names the task at this position: its number, title and status.
  predicate Names(saved: Persisted, tasks: seq<Task>, k: nat) {
    && k < |tasks| && saved.selectedTask.Some? && saved.selectedTask.value.number == tasks[k].number
    && saved.selectedTask.value.title == tasks[k].title && saved.selectedTask.value.status == tasks[k].status
  }

  // Any handoff is accepted if and only if it is for this plan, says resolved, and names
  // the one task in progress.
  lemma AcceptedExactly(
    scope: Option<string>, persisted: Option<Persisted>, plan: Option<seq<Line>>, resolve: string -> string)
    ensures HandoffReason(scope, persisted, plan, resolve).ValidResolvedCurrentTaskHandoff? <==>
      && scope.Some? && persisted.Some? && plan.Some?
      && persisted.value.planPath.Some? && resolve(persisted.value.planPath.value) == resolve(scope.value)
      && persisted.value.selectionStatus == Some(Resolved)
      && exists k: nat :: OpenPositions(Tasks(plan.value)) == {k} && Names(persisted.value, Tasks(plan.value), k)
  {
    if scope.Some? && persisted.Some? && plan.Some? {
      var tasks := Tasks(plan.value);
      OpenCount(tasks);
      OnePosition(tasks);
      forall k: nat | OpenPositions(tasks) == {k} ensures |OpenPositions(tasks)| == 1 {}
      if |OpenPositions(tasks)| == 1 { OpenMeansIncomplete(tasks); }
    }
  }

  // The checks are made in this order, and the reason given is the first that fails; with
  // one task in progress there is an active one, so its absence is never the reason.
  lemma RefusedBecause(
    scope: Option<string>, persisted: Option<Persisted>, plan: Option<seq<Line>>, resolve: string -> string)
    ensures var reason := HandoffReason(scope, persisted, plan, resolve);
      && !reason.ActiveSelectedTaskMissing?
      && (reason.InvalidCurrentPlanHandoff? <==> scope.None?)
      && (reason.MissingOrInvalidCurrentTaskHandoff? <==> scope.Some? && persisted.None?)
      && (reason.PlanStatusFailed? <==> scope.Some? && persisted.Some? && plan.None?)
    ensures scope.Some? && persisted.Some? && plan.Some? ==>
      ReadReason(HandoffReason(scope, persisted, plan, resolve), scope.value, persisted.value, plan.value, resolve)
  {
    if scope.Some? && persisted.Some? && plan.Some? {
      var tasks := Tasks(plan.value);
      OpenCount(tasks);
      OnePosition(tasks);
      StoryCompleteMeans(plan.value);
    }
  }

  // The reasons when everything could be read.
  ghost predicate ReadReason(reason: Reason, scope: string, saved: Persisted, lines: seq<Line>,
                             resolve: string -> string)
  {
    var tasks := Tasks(lines);
    if saved.planPath.None? || resolve(saved.planPath.value) != resolve(scope) then reason.PlanPathMismatch?
    else if tasks != [] && forall t | t in tasks ::
        t.endLine <= |lines| && SaysStatus(lines, t, DONE) && NothingOpen(lines, t)
    then reason.StoryIsAlreadyComplete?
    else if saved.selectionStatus != Some(Resolved) then reason.SelectionNotResolved?
    else if |OpenPositions(tasks)| != 1 then reason.ActiveTaskCountMismatch?
    else if saved.selectedTask.None? then reason.PersistedSelectedTaskMissing?
    else if !exists k: nat :: OpenPositions(tasks) == {k} && Names(saved, tasks, k) then reason.SelectedTaskMismatch?
    else reason.ValidResolvedCurrentTaskHandoff?
  }

  // With one task in progress, that is the active one.
  lemma OnePosition(tasks: seq<Task>)
    requires |OpenPositions(tasks)| == 1 ==> |WithStatus(tasks, {IN_PROGRESS})| == 1
    ensures |OpenPositions(tasks)| == 1 ==>
      exists k: nat :: OpenPositions(tasks) == {k} && k < |tasks| && SelectActive(tasks) == Some(tasks[k])
  {
    if |OpenPositions(tasks)| == 1 {
      var open := WithStatus(tasks, {IN_PROGRESS});
      assert open == [open[0]];
      SingleIsHighest(open[0]);
      WithStatusMember(tasks, {IN_PROGRESS}, open[0]);
      var k: nat :| k < |tasks| && tasks[k] == open[0];
      OnlyElement(OpenPositions(tasks), k);
    }
  }

  lemma OnlyElement(s: set<nat>, k: nat)
    requires |s| == 1 && k in s
    ensures s == {k}
  {
    assert |s - {k}| == 0;
  }

  // The characters str.strip removes.
  predicate IsBlank(c: char) {
    || '\t' <= c <= '\r' || '\U{1C}' <= c <= ' ' || c == '\U{85}' || c == '\U{A0}' || c == '\U{1680}'
    || '\U{2000}' <= c <= '\U{200A}' || c == '\U{2028}' || c == '\U{2029}' || c == '\U{202F}' || c == '\U{205F}'
    || c == '\U{3000}'
  }

  predicate BlankPath(path: string) { forall k | 0 <= k < |path| :: IsBlank(path[k]) }

  // What the selector's payload looks like to the validator.
  function Written(payload: Payload): Persisted {
    Persisted(if BlankPath(payload.planPath) then None else Some(payload.planPath), Some(payload.selectionStatus),
              payload.selectedTask)
  }

  // The validator's verdict on the handoff a selector run has just written.
  function Verdict(planPath: string, lines: seq<Line>, resolve: string -> string): Reason {
    HandoffReason(Some(planPath), Some(Written(PayloadOf(planPath, lines))), Some(Selected(lines)), resolve)
  }

  lemma {:induction false} FindNumberIs(tasks: seq<Task>, n: nat)
    ensures FindNumber(tasks, n).Some? ==> FindNumber(tasks, n).value in tasks && FindNumber(tasks, n).value.number == n
    ensures FindNumber(tasks, n).None? ==> forall t | t in tasks :: t.number != n
  {
    if tasks != [] && tasks[0].number != n { FindNumberIs(tasks[1..], n); }
  }

  // Updating statuses does not change which task is the first of its number.
  lemma {:induction false} FindNumberUpdated(tasks: seq<Task>, u: Updates, n: nat)
    ensures FindNumber(UpdateAll(tasks, u), n)
         == if FindNumber(tasks, n).Some? then Some(UpdateTask(FindNumber(tasks, n).value, u)) else None
  {
    if tasks != [] {
      UpdateTail(tasks, u);
      FindNumberUpdated(tasks[1..], u, n);
    }
  }

  lemma SingleIsHighest(t: Task)
    ensures Highest([t]) == Some(t)
  {
    assert [t][..0] == [];
  }

  lemma OpenMeansIncomplete(tasks: seq<Task>)
    requires WithStatus(tasks, {IN_PROGRESS}) != []
    ensures !StoryComplete(tasks)
  {
    OpenIffInProgress(tasks);
    assert |IN_PROGRESS| != |DONE|;
  }

  // The tasks of a number that carry a status.
  function Marked(tasks: seq<Task>, n: nat): nat {
    if tasks == [] then 0 else (if tasks[0].number == n && tasks[0].status.Some? then 1 else 0) + Marked(tasks[1..], n)
  }

  // A promotion that leaves one task in progress, which is found by its number: one
  // task of the number carries a status, and the first task of the number does.
  predicate ClearPromotion(tasks: seq<Task>) {
    WithStatus(tasks, {IN_PROGRESS}) == [] && EarliestTodo(tasks).Some? ==>
      var n := EarliestTodo(tasks).value.number;
      && Marked(tasks, n) == 1
      && FindNumber(tasks, n).Some? && FindNumber(tasks, n).value.status.Some?
  }

  lemma {:induction false} WithStatusSplits(a: seq<Task>, b: seq<Task>, wanted: set<string>)
    ensures WithStatus(a + b, wanted) == WithStatus(a, wanted) + WithStatus(b, wanted)
  {
    if b == [] {
      assert a + b == a;
    } else {
      assert (a + b)[..|a + b| - 1] == a + b[..|b| - 1];
      WithStatusSplits(a, b[..|b| - 1], wanted);
    }
  }

  lemma WithStatusOne(t: Task)
    ensures WithStatus([t], {IN_PROGRESS}) == if t.Is(IN_PROGRESS) then [t] else []
  {
    assert [t][..0] == [];
  }

  // As many tasks are in progress after a promotion as carried a status before.
  lemma {:induction false} PromotedCount(tasks: seq<Task>, n: nat)
    requires forall t | t in tasks :: !t.Is(IN_PROGRESS)
    ensures |WithStatus(UpdateAll(tasks, map[n := IN_PROGRESS]), {IN_PROGRESS})| == Marked(tasks, n)
  {
    if tasks != [] {
      var u := map[n := IN_PROGRESS];
      var after := UpdateAll(tasks, u);
      UpdateTail(tasks, u);
      PromotedCount(tasks[1..], n);
      assert after == [after[0]] + after[1..];
      WithStatusSplits([after[0]], after[1..], {IN_PROGRESS});
      WithStatusOne(after[0]);
      assert tasks[0] in tasks;
    }
  }

  // What the validator sees after a promotion.
  lemma PromotedState(lines: seq<Line>)
    requires Promotion(lines) != map[]
    ensures EarliestTodo(Tasks(lines)).Some?
    ensures var before, after := Tasks(lines), Tasks(Rewrite(lines, Promotion(lines)));
      var n := EarliestTodo(before).value.number;
      && |WithStatus(after, {IN_PROGRESS})| == Marked(before, n) >= 1
      && FindNumber(before, n).Some? && FindNumber(after, n).Some? && FindNumber(after, n).value in after
      && (FindNumber(after, n).value.Is(IN_PROGRESS) <==> FindNumber(before, n).value.status.Some?)
  {
    var before, u := Tasks(lines), Promotion(lines);
    PromotionCondition(lines);
    ParseCommutesWithRewrite(lines, u);
    var e := EarliestTodo(before).value;
    PromotedCount(before, e.number);
    FindNumberIs(before, e.number);
    FindNumberUpdated(before, u, e.number);
    FindNumberIs(UpdateAll(before, u), e.number);
    OpenIffInProgress(UpdateAll(before, u));
    var k :| 0 <= k < |before| && before[k] == e;
    assert UpdateAll(before, u)[k].Is(IN_PROGRESS) && UpdateAll(before, u)[k] in UpdateAll(before, u);
  }

  // ---- the three cases of a run, for a path that is not blank ----

  lemma ActiveAgrees(planPath: string, lines: seq<Line>, resolve: string -> string)
    requires !BlankPath(planPath) && |WithStatus(Tasks(Normalized(lines)), {IN_PROGRESS})| == 1
    ensures PayloadOf(planPath, lines).selectionStatus.Resolved?
    ensures Verdict(planPath, lines, resolve).ValidResolvedCurrentTaskHandoff?
  {
    var tasks := Tasks(Normalized(lines));
    var open := WithStatus(tasks, {IN_PROGRESS});
    NoUpdates(Normalized(lines));
    OpenMeansIncomplete(tasks);
    assert open == [open[0]];
    SingleIsHighest(open[0]);
  }

  // With one task in progress, a task in progress is that one.
  lemma OnlyOpen(tasks: seq<Task>, t: Task)
    requires |WithStatus(tasks, {IN_PROGRESS})| == 1 && t in tasks
    ensures t.Is(IN_PROGRESS) <==> t == WithStatus(tasks, {IN_PROGRESS})[0]
  {
    WithStatusMember(tasks, {IN_PROGRESS}, t);
  }

  // A resolved selection of a task of the plan, where something is in progress.
  lemma ResolvedVerdict(planPath: string, selected: Task, plan: seq<Line>, resolve: string -> string)
    requires WithStatus(Tasks(plan), {IN_PROGRESS}) != [] && selected in Tasks(plan)
    ensures var verdict := HandoffReason(
        Some(planPath), Some(Persisted(Some(planPath), Some(Resolved), Some(selected))), Some(plan), resolve);
      && !verdict.StoryIsAlreadyComplete? && !verdict.SelectionNotResolved?
      && (verdict.ValidResolvedCurrentTaskHandoff?
          <==> |WithStatus(Tasks(plan), {IN_PROGRESS})| == 1 && selected.Is(IN_PROGRESS))
  {
    var tasks := Tasks(plan);
    var open := WithStatus(tasks, {IN_PROGRESS});
    OpenMeansIncomplete(tasks);
    if |open| == 1 {
      assert open == [open[0]];
      SingleIsHighest(open[0]);
      WithStatusMember(tasks, {IN_PROGRESS}, open[0]);
      OnlyOpen(tasks, selected);
    }
  }

  lemma PromotedPayload(planPath: string, lines: seq<Line>)
    requires Promotion(Normalized(lines)) != map[]
    ensures EarliestTodo(Tasks(Normalized(lines))).Some?
    ensures var payload := PayloadOf(planPath, lines);
      && payload.selectionStatus.Resolved? && payload.planPath == planPath
      && payload.selectedTask == FindNumber(Tasks(Selected(lines)), EarliestTodo(Tasks(Normalized(lines))).value.number)
  {
    PromotionCondition(Normalized(lines));
    OpenIffInProgress(Tasks(Normalized(lines)));
  }

  // A promoted handoff is accepted exactly if the promotion is clear.
  lemma PromotedAgrees(planPath: string, lines: seq<Line>, resolve: string -> string)
    requires !BlankPath(planPath) && Promotion(Normalized(lines)) != map[]
    ensures PayloadOf(planPath, lines).selectionStatus.Resolved?
    ensures var verdict := Verdict(planPath, lines, resolve);
      && !verdict.StoryIsAlreadyComplete? && !verdict.SelectionNotResolved?
      && (verdict.ValidResolvedCurrentTaskHandoff? <==> ClearPromotion(Tasks(Normalized(lines))))
  {
    var before, after := Tasks(Normalized(lines)), Tasks(Selected(lines));
    PromotedState(Normalized(lines));
    PromotionCondition(Normalized(lines));
    OpenIffInProgress(before);
    PromotedPayload(planPath, lines);
    var selected := FindNumber(after, EarliestTodo(before).value.number).value;
    ResolvedVerdict(planPath, selected, Selected(lines), resolve);
    assert Written(PayloadOf(planPath, lines)) == Persisted(Some(planPath), Some(Resolved), Some(selected));
  }

  lemma UnresolvedAgrees(planPath: string, lines: seq<Line>, resolve: string -> string)
    requires !BlankPath(planPath)
    requires |WithStatus(Tasks(Normalized(lines)), {IN_PROGRESS})| != 1 && Promotion(Normalized(lines)) == map[]
    ensures var status := PayloadOf(planPath, lines).selectionStatus;
      && !status.Resolved?
      && Verdict(planPath, lines, resolve)
          == if status.StoryIsComplete? then StoryIsAlreadyComplete else SelectionNotResolved
  {
    var tasks := Tasks(Normalized(lines));
    NoUpdates(Normalized(lines));
    PromotionCondition(Normalized(lines));
    EarliestTodoIsLowest(tasks);
    OpenIffInProgress(tasks);
    if WithStatus(tasks, {IN_PROGRESS}) != [] {
      OpenMeansIncomplete(tasks);
    }
  }

  // A blank path is no path to the validator.
  lemma BlankPathMismatches(planPath: string, lines: seq<Line>, resolve: string -> string)
    requires BlankPath(planPath)
    ensures Verdict(planPath, lines, resolve).PlanPathMismatch?
  {
  }

  // On the plan the selector left, the validator accepts exactly a resolved
  // selection, reports a completed story as such, and both kinds of repair as
  // unresolved, if and only if the path is not blank and a promotion was clear.
  lemma SelectorAndValidatorAgree(planPath: string, lines: seq<Line>, resolve: string -> string)
    ensures var status, verdict := PayloadOf(planPath, lines).selectionStatus, Verdict(planPath, lines, resolve);
      (&& (verdict.ValidResolvedCurrentTaskHandoff? <==> status.Resolved?)
       && (verdict.StoryIsAlreadyComplete? <==> status.StoryIsComplete?)
       && (verdict.SelectionNotResolved? <==> status.NeedsPlanRepair?))
      <==> (!BlankPath(planPath) && ClearPromotion(Tasks(Normalized(lines))))
  {
    var normal := Normalized(lines);
    if BlankPath(planPath) {
      BlankPathMismatches(planPath, lines, resolve);
    } else if |WithStatus(Tasks(normal), {IN_PROGRESS})| == 1 {
      ActiveAgrees(planPath, lines, resolve);
    } else if Promotion(normal) != map[] {
      PromotedAgrees(planPath, lines, resolve);
    } else {
      UnresolvedAgrees(planPath, lines, resolve);
      PromotionCondition(normal);
      EarliestTodoIsLowest(Tasks(normal));
      OpenIffInProgress(Tasks(normal));
    }
  }

  // Distinct numbers make every promotion clear.
  lemma DistinctNumbersAreClear(tasks: seq<Task>)
    requires DistinctNumbers(tasks)
    ensures ClearPromotion(tasks)
  {
    EarliestTodoIsLowest(tasks);
    if EarliestTodo(tasks).Some? {
      var e := EarliestTodo(tasks).value;
      var k :| 0 <= k < |tasks| && tasks[k] == e;
      MarkedOnce(tasks, k);
    }
  }

  lemma {:induction false} MarkedNever(tasks: seq<Task>, n: nat)
    requires forall t | t in tasks :: t.number != n
    ensures Marked(tasks, n) == 0
  {
    if tasks != [] { MarkedNever(tasks[1..], n); }
  }

  lemma {:induction false} MarkedOnce(tasks: seq<Task>, k: nat)
    requires DistinctNumbers(tasks) && k < |tasks| && tasks[k].status.Some?
    ensures Marked(tasks, tasks[k].number) == 1 && FindNumber(tasks, tasks[k].number) == Some(tasks[k])
  {
    if k > 0 { MarkedOnce(tasks[1..], k - 1); } else { MarkedNever(tasks[1..], tasks[0].number); }
  }

  // The condition can fail: with a shared number both to-dos are promoted, the
  // selector writes "resolved", and the validator counts two open tasks.
  lemma SharedNumberDisagrees(planPath: string, resolve: string -> string)
    requires !BlankPath(planPath)
    ensures exists lines: seq<Line> ::
      && PayloadOf(planPath, lines).selectionStatus.Resolved?
      && Verdict(planPath, lines, resolve).ActiveTaskCountMismatch?
  {
    var lines := SharedPlan(TO_DO, TO_DO);
    BothPromoted();
    BothOpen();
    OpenMeansIncomplete(SharedTasks(IN_PROGRESS, IN_PROGRESS));
    PromotionCondition(lines);
    OpenIffInProgress(Tasks(lines));
    assert PayloadOf(planPath, lines).selectionStatus.Resolved?;
    assert Verdict(planPath, lines, resolve).ActiveTaskCountMismatch?;
  }

  lemma BothOpen()
    ensures |WithStatus(SharedTasks(IN_PROGRESS, IN_PROGRESS), {IN_PROGRESS})| == 2
  {
    var a, b := SharedTasks(IN_PROGRESS, IN_PROGRESS)[0], SharedTasks(IN_PROGRESS, IN_PROGRESS)[1];
    assert SharedTasks(IN_PROGRESS, IN_PROGRESS) == [a, b];
    assert [a, b][..1] == [a] && [a][..0] == [];
    assert WithStatus([a], {IN_PROGRESS}) == [a];
  }

  lemma BothPromoted()
    ensures Normalized(SharedPlan(TO_DO, TO_DO)) == SharedPlan(TO_DO, TO_DO)
    ensures Promotion(SharedPlan(TO_DO, TO_DO)) != map[]
    ensures Tasks(Selected(SharedPlan(TO_DO, TO_DO))) == SharedTasks(IN_PROGRESS, IN_PROGRESS)
  {
    SharedIsNormal(TO_DO, TO_DO);
    SharedIsPromoted(TO_DO);
    SharedPlanPromotes(TO_DO);
    assert 1 in map[1 := IN_PROGRESS];
  }
}
