// client/src/hooks/useChatStream.ts: the hook's refs and message list, changed in
// place. Every operation is tied to its function in ChatModel.
module ChatStream {
  import opened Prelude
  import opened ChatTypes
  import opened ChatModel
  import opened ChatScreen
  import opened ChatIndex
  import opened ChatLive

  // What every public operation keeps: the invariants of the screen, of the bubble
  // maps and of the live buffers.
  predicate Consistent(st: Chat) { ChatScreenInv(st) && ChatIndexInv(st) && LiveInv(st.live) }

  lemma StartConsistent(conversation: string)
    ensures Consistent(Start(conversation))
  {
    FreshBodies("", "");
  }

  lemma StepConsistent(st: Chat, step: Step)
    requires Consistent(st) && StepOk(st, step)
    ensures Consistent(Next(st, step))
  {
    StepKeepsScreen(st, step);
    StepKeepsIndex(st, step);
    StepKeepsLive(st, step);
  }

  lemma HydrationConsistent(st: Chat, conversation: string, history: seq<Entry>, mode: Mode)
    requires Consistent(st) && EntriesKnown(st, history)
    ensures Consistent(ChatModel.HydrateHistory(st, conversation, history, mode)) <==> TracksEchoes(st, history)
  {
    HydrationIsExact(st, conversation, history, mode);
    HydrationKeepsRefs(st, conversation, history, mode);
  }

  lemma HydrationKeepsRefs(st: Chat, conversation: string, history: seq<Entry>, mode: Mode)
    requires Consistent(st)
    ensures var after := ChatModel.HydrateHistory(st, conversation, history, mode);
      ChatIndexInv(after) && LiveInv(after.live)
  {
    HistoryIndex(st, conversation, history, mode);
    FreshBodies("", "");
  }

  // collapseConfirmedUserEchoes
  method CollapseConfirmedUserEchoes(next: seq<Message>) returns (r: seq<Message>)
    ensures r == Collapse(next)
  {
    var contents: set<string> := {};
    for k := 0 to |next|
      invariant contents == ConfirmedContents(next[..k])
    {
      assert next[..k + 1] == next[..k] + [next[k]];
      if Confirmed(next[k]) { contents := contents + {next[k].body.text}; }
    }
    assert next[..|next|] == next;
    r := [];
    for k := 0 to |next|
      invariant r == DropEchoes(next[..k], contents)
    {
      assert next[..k + 1][..k] == next[..k];
      if !(Echo(next[k]) && next[k].body.text in contents) { r := r + [next[k]]; }
    }
  }

  // The last optimistic user message among the last eight, or -1.
  method FindLatestOptimistic(ms: seq<Message>) returns (k: int)
    ensures k == LatestEcho(ms, |ms| - 1, ScanFloor(ms))
  {
    k := |ms| - 1;
    while k >= 0 && k >= |ms| - 8
      invariant -1 <= k < |ms|
      invariant LatestEcho(ms, k, ScanFloor(ms)) == LatestEcho(ms, |ms| - 1, ScanFloor(ms))
    {
      if Echo(ms[k]) { return; }
      k := k - 1;
    }
    k := -1;
  }

  // The last user message among the last eight that the turn repeats, or -1.
  method FindSameTurn(ms: seq<Message>, content: string, createdAt: Stamp, now: int) returns (k: int)
    ensures k == LatestSameTurn(ms, |ms| - 1, ScanFloor(ms), content, createdAt, now)
  {
    k := |ms| - 1;
    while k >= 0 && k >= |ms| - 8
      invariant -1 <= k < |ms|
      invariant LatestSameTurn(ms, k, ScanFloor(ms), content, createdAt, now)
             == LatestSameTurn(ms, |ms| - 1, ScanFloor(ms), content, createdAt, now)
    {
      var m := ms[k];
      if m.role.User? && m.body.text == content
         && (m.optimistic || WithinHydrationWindow(m.createdAt, createdAt) || Recent(m.createdAt, now)) {
        return;
      }
      k := k - 1;
    }
    k := -1;
  }

  method IndexOfId(ms: seq<Message>, id: Id) returns (k: int)
    ensures k == FindId(ms, id)
  {
    k := 0;
    while k < |ms|
      invariant 0 <= k <= |ms|
      invariant forall j | 0 <= j < k :: ms[j].id != id
    {
      if ms[k].id == id { return; }
      k := k + 1;
    }
    k := -1;
  }

  method FindMatch(candidates: seq<Message>, entry: Message) returns (r: Option<Message>)
    ensures r == FirstMatch(candidates, entry)
  {
    var k := 0;
    while k < |candidates|
      invariant 0 <= k <= |candidates|
      invariant FirstMatch(candidates[k..], entry) == FirstMatch(candidates, entry)
    {
      if Matches(candidates[k], entry) { return Some(candidates[k]); }
      k := k + 1;
    }
    return None;
  }

  method DropRepeatedIds(next: seq<Message>) returns (r: seq<Message>)
    ensures r == Dedupe(next)
  {
    var seen: set<Id> := {};
    r := [];
    for k := 0 to |next|
      invariant r == Dedupe(next[..k]) && seen == Ids(next[..k])
    {
      assert next[..k + 1][..k] == next[..k] && next[..k + 1] == next[..k] + [next[k]];
      if next[k].id !in seen {
        seen := seen + {next[k].id};
        r := r + [next[k]];
      }
    }
    assert next[..|next|] == next;
  }

  method DropId(ms: seq<Message>, id: Id) returns (r: seq<Message>)
    ensures r == Without(ms, id)
  {
    r := [];
    for k := 0 to |ms|
      invariant r == Without(ms[..k], id)
    {
      assert ms[..k + 1][..k] == ms[..k];
      if ms[k].id != id { r := r + [ms[k]]; }
    }
    assert ms[..|ms|] == ms;
  }

  lemma HasSegmentSnoc(segments: seq<Segment>, s: Segment, id: Id)
    ensures HasSegment(segments + [s], id) <==> HasSegment(segments, id) || IsToolSegment(s, id)
  {
    var all := segments + [s];
    assert all[|segments|] == s && forall k | 0 <= k < |segments| :: all[k] == segments[k];
    if k :| 0 <= k < |segments| && IsToolSegment(segments[k], id) { assert IsToolSegment(all[k], id); }
    if k :| 0 <= k < |all| && IsToolSegment(all[k], id) {
      assert k < |segments| ==> IsToolSegment(segments[k], id);
    }
  }

  // Puts the tool into its segment, and says whether it has one.
  method UpdateToolSegment(segments: seq<Segment>, tool: ToolCall) returns (r: seq<Segment>, replaced: bool)
    ensures r == ReplaceTool(segments, tool) && replaced == HasSegment(segments, tool.id)
  {
    r, replaced := [], false;
    for k := 0 to |segments|
      invariant r == ReplaceTool(segments[..k], tool) && replaced == HasSegment(segments[..k], tool.id)
    {
      var before := segments[..k];
      assert segments[..k + 1] == before + [segments[k]];
      HasSegmentSnoc(before, segments[k], tool.id);
      if IsToolSegment(segments[k], tool.id) {
        replaced := true;
        r := r + [Tool(tool)];
      } else {
        r := r + [segments[k]];
      }
    }
    assert segments[..|segments|] == segments;
  }

  // The message list, and the tracking of optimistic user messages.
  class Transcript {
    var messages: seq<Message>
    var optimisticIds: set<Id>
    var optimisticIdByInflight: map<InflightId, Id>

    function Value(): Screen
      reads this
    {
      Screen(messages, optimisticIds, optimisticIdByInflight)
    }

    constructor ()
      ensures Value() == Screen([], {}, map[])
    {
      messages, optimisticIds, optimisticIdByInflight := [], {}, map[];
    }

    method RemoveOptimisticTracking(id: Id)
      modifies this
      ensures Value() == UntrackAll(old(Value()), {id})
    {
      optimisticIds := optimisticIds - {id};
      var todo := optimisticIdByInflight.Keys;
      while todo != {}
        invariant messages == old(messages) && optimisticIds == old(optimisticIds) - {id}
        invariant todo <= optimisticIdByInflight.Keys <= old(optimisticIdByInflight.Keys)
        invariant forall i | i in old(optimisticIdByInflight) ::
          i in optimisticIdByInflight <==> i in todo || old(optimisticIdByInflight)[i] != id
        invariant forall i | i in optimisticIdByInflight :: optimisticIdByInflight[i] == old(optimisticIdByInflight)[i]
      {
        var i :| i in todo;
        todo := todo - {i};
        if optimisticIdByInflight[i] == id { optimisticIdByInflight := optimisticIdByInflight - {i}; }
      }
      assert optimisticIdByInflight == UntrackAll(old(Value()), {id}).trackedBy;
    }

    method PruneOptimisticTracking(next: seq<Message>)
      modifies this
      ensures messages == old(messages) && optimisticIds == old(optimisticIds) * Ids(next)
      ensures optimisticIdByInflight == Prune(old(Value()), next).trackedBy
    {
      if optimisticIds == {} && optimisticIdByInflight == map[] { return; }
      var todo := optimisticIds;
      while todo != {}
        invariant todo <= optimisticIds <= old(optimisticIds)
        invariant forall id | id in old(optimisticIds) :: id in optimisticIds <==> id in todo || id in Ids(next)
        invariant messages == old(messages) && optimisticIdByInflight == old(optimisticIdByInflight)
      {
        var id :| id in todo;
        todo := todo - {id};
        if id !in Ids(next) { optimisticIds := optimisticIds - {id}; }
      }
      var left := optimisticIdByInflight.Keys;
      while left != {}
        invariant messages == old(messages) && optimisticIds == old(optimisticIds) * Ids(next)
        invariant left <= optimisticIdByInflight.Keys <= old(optimisticIdByInflight.Keys)
        invariant forall i | i in old(optimisticIdByInflight) ::
          i in optimisticIdByInflight <==> i in left || old(optimisticIdByInflight)[i] in optimisticIds
        invariant forall i | i in optimisticIdByInflight :: optimisticIdByInflight[i] == old(optimisticIdByInflight)[i]
      {
        var i :| i in left;
        left := left - {i};
        if optimisticIdByInflight[i] !in optimisticIds { optimisticIdByInflight := optimisticIdByInflight - {i}; }
      }
    }

    // updateMessages, given what the updater returns.
    method UpdateMessages(updated: seq<Message>)
      modifies this
      ensures Value() == Show(old(Value()), updated)
    {
      var next := CollapseConfirmedUserEchoes(updated);
      PruneOptimisticTracking(next);
      messages := next;
    }

    // syncAssistantMessage.
    method EditMessage(id: Id, updates: Patch)
      modifies this
      ensures Value() == Show(old(Value()), Edit(old(messages), id, updates))
    {
      UpdateMessages(Edit(messages, id, updates));
    }

    method ClearTracking()
      modifies this
      ensures Value() == Screen(old(messages), {}, map[])
    {
      optimisticIds, optimisticIdByInflight := {}, map[];
    }

    method ConfirmUserMessage(k: nat, untrack: bool, content: string, createdAt: Stamp)
      requires k < |messages|
      modifies this
      ensures Value() == Show(
        if untrack then UntrackAll(old(Value()), {old(messages)[k].id}) else old(Value()),
        old(messages)[k := ConfirmedMessage(old(messages)[k], content, createdAt)])
    {
      if untrack { RemoveOptimisticTracking(messages[k].id); }
      var m := messages[k];
      UpdateMessages(messages[k := m.(body := m.body.(text := content), createdAt := createdAt, optimistic := false)]);
    }

    // A new user message; it goes before the processing bubble of its own reply.
    method InsertUserTurn(m: Message, assistant: Option<Id>)
      modifies this
      ensures Value() == Show(old(Value()), InsertTurn(old(messages), m, assistant))
    {
      var n := |messages| - 1;
      var next := messages + [m];
      if assistant.Some? && messages != [] && messages[n].id == assistant.value && messages[n].role.Assistant?
         && messages[n].streamStatus == Some(Processing) {
        next := messages[..n] + [m, messages[n]];
      }
      UpdateMessages(next);
    }

    // Returns whether the turn still needs a message of its own.
    method ConfirmUserTurn(bound: Option<Id>, content: string, createdAt: Stamp, now: int) returns (missing: bool)
      modifies this
      ensures missing <==> PlanTurn(old(messages), bound, content, createdAt, now).Append?
      ensures missing ==> Value() == old(Value())
      ensures !missing ==>
        Value() == Planned(old(Value()), PlanTurn(old(messages), bound, content, createdAt, now), content, createdAt)
    {
      missing := false;
      if content == "" { UpdateMessages(messages); return; }
      if bound.Some? {
        var k := IndexOfId(messages, bound.value);
        if k >= 0 { ConfirmUserMessage(k, true, content, createdAt); return; }
      }
      missing := ConfirmUnboundTurn(content, createdAt, now);
    }

    method ConfirmUnboundTurn(content: string, createdAt: Stamp, now: int) returns (missing: bool)
      modifies this
      ensures missing <==> PlanUnbound(old(messages), content, createdAt, now).Append?
      ensures missing ==> Value() == old(Value())
      ensures !missing ==>
        Value() == Planned(old(Value()), PlanUnbound(old(messages), content, createdAt, now), content, createdAt)
    {
      missing := false;
      var n := FindLatestOptimistic(messages);
      if n >= 0 && Recent(messages[n].createdAt, now) && messages[n].body.text == content {
        ConfirmUserMessage(n, true, content, createdAt);
        return;
      }
      missing := ConfirmSameTurn(content, createdAt, now);
    }

    method ConfirmSameTurn(content: string, createdAt: Stamp, now: int) returns (missing: bool)
      modifies this
      ensures var j := LatestSameTurn(old(messages), |old(messages)| - 1, ScanFloor(old(messages)), content,
          createdAt, now);
        && (missing <==> j < 0) && (missing ==> Value() == old(Value()))
        && (!missing ==> Value() == Planned(old(Value()), SameTurnPlan(old(messages), j, createdAt), content,
            createdAt))
    {
      missing := false;
      var j := FindSameTurn(messages, content, createdAt, now);
      if j < 0 {
        missing := true;
      } else if messages[j].optimistic {
        ConfirmUserMessage(j, true, content, createdAt);
      } else if messages[j].createdAt.raw == createdAt.raw {
        UpdateMessages(messages);
      } else {
        ConfirmUserMessage(j, false, content, createdAt);
      }
    }

    method Track(id: Id)
      modifies this
      ensures Value() == old(Value()).(tracked := old(optimisticIds) + {id})
    {
      optimisticIds := optimisticIds + {id};
    }

    method Bind(i: InflightId, id: Id)
      modifies this
      ensures Value() == old(Value()).(trackedBy := old(optimisticIdByInflight)[i := id])
    {
      optimisticIdByInflight := optimisticIdByInflight[i := id];
    }

    // Matches history entries with the last six messages; says whether a finished
    // entry met a bubble still processing.
    method MatchHistory(history: seq<Entry>)
      returns (kept: seq<Message>, replacements: map<Id, Message>, reset: bool, ghost untracked: set<Id>)
      modifies this
      ensures Merge(kept, replacements, untracked, reset) == ChatModel.MergeHistory(SliceFromEnd(old(messages), 6),
          history)
      ensures Value() == UntrackAll(old(Value()), untracked)
    {
      var candidates := SliceFromEnd(messages, 6);
      kept, replacements, reset, untracked := [], map[], false, {};
      UntrackNone(Value());
      for k := 0 to |history|
        invariant Merge(kept, replacements, untracked, reset) == ChatModel.MergeHistory(candidates, history[..k])
        invariant Value() == UntrackAll(old(Value()), untracked)
      {
        assert history[..k + 1][..k] == history[..k];
        var entry := history[k];
        var found := FindMatch(candidates, entry.message);
        if found.None? {
          kept := kept + [entry.message];
        } else {
          var m := found.value;
          if m.optimistic {
            RemoveOptimisticTracking(m.id);
            UntrackMore(old(Value()), untracked, m.id);
            untracked := untracked + {m.id};
          }
          replacements := replacements[m.id := Overlay(m, entry)];
          var ended := entry.message.streamStatus;
          if m.streamStatus == Some(Processing) && ended.Some? && !ended.value.Processing? { reset := true; }
        }
      }
      assert history[..|history|] == history;
    }

    static lemma UntrackNone(s: Screen)
      ensures UntrackAll(s, {}) == s
    {
      assert UntrackAll(s, {}).trackedBy == s.trackedBy;
    }

    static lemma UntrackMore(s: Screen, ids: set<Id>, id: Id)
      ensures UntrackAll(UntrackAll(s, ids), {id}) == UntrackAll(s, ids + {id})
    {
      assert UntrackAll(UntrackAll(s, ids), {id}).trackedBy == UntrackAll(s, ids + {id}).trackedBy;
      assert s.tracked - ids - {id} == s.tracked - (ids + {id});
    }

    // The list updater of hydrateHistory.
    method MergeHistory(live: bool, history: seq<Entry>, mode: Mode) returns (reset: bool)
      modifies this
      ensures var g := if live && old(messages) != []
                       then ChatModel.MergeHistory(SliceFromEnd(old(messages), 6), history)
                       else Merge(EntryMessages(history), map[], {}, false);
        && reset == g.reset
        && Value() == Show(UntrackAll(old(Value()), g.untracked),
             Dedupe(if mode.PrependMode? || live then g.kept + Replace(old(messages), g.replacements) else g.kept))
    {
      var kept, shown := EntryMessages(history), messages;
      reset := false;
      UntrackNone(Value());
      if live && history != [] && messages != [] {
        var replacements: map<Id, Message>;
        ghost var untracked: set<Id>;
        kept, replacements, reset, untracked := MatchHistory(history);
        shown := Replace(messages, replacements);
      } else {
        assert Replace(messages, map[]) == messages;
      }
      var next := DropRepeatedIds(if mode.PrependMode? || live then kept + shown else kept);
      UpdateMessages(next);
    }

    // The list updater of removePendingAssistantIfOptimistic.
    method RemoveIfEmpty(id: Id)
      modifies this
      ensures Value() == Show(old(Value()), WithoutEmpty(old(messages), id))
    {
      var k := IndexOfId(messages, id);
      if k < 0 || !messages[k].role.Assistant? || HasVisibleContent(messages[k]) {
        UpdateMessages(messages);
      } else {
        var kept := DropId(messages, id);
        UpdateMessages(kept);
      }
    }
  }

  // Which bubble belongs to which inflight.
  class Bubbles {
    var assistantIdByInflight: map<InflightId, Id>
    var historicalIdByInflight: map<InflightId, Id>
    var seen: set<InflightId>
    var finalized: set<InflightId>

    function Value(): Index
      reads this
    {
      Index(assistantIdByInflight, historicalIdByInflight, seen, finalized)
    }

    constructor ()
      ensures Value() == NO_INDEX
    {
      assistantIdByInflight, historicalIdByInflight, seen, finalized := map[], map[], {}, {};
    }

    method MapNew(key: Option<InflightId>, id: Id)
      modifies this
      ensures Value() == BindKey(old(Value()), key, id)
    {
      if key.Some? {
        assistantIdByInflight := assistantIdByInflight[key.value := id];
        historicalIdByInflight := historicalIdByInflight[key.value := id];
      }
    }

    method MapReused(key: Option<InflightId>, id: Id)
      requires key.Some? && key.value in assistantIdByInflight ==> assistantIdByInflight[key.value] == id
      modifies this
      ensures Value() == BindKey(old(Value()), key, id)
    {
      if key.Some? {
        if key.value !in assistantIdByInflight { assistantIdByInflight := assistantIdByInflight[key.value := id]; }
        historicalIdByInflight := historicalIdByInflight[key.value := id];
      }
    }

    method RememberSeen(i: InflightId)
      modifies this
      ensures Value() == See(old(Value()), i)
    {
      if i != "" { seen := seen + {i}; }
    }

    method RecordFinal(i: InflightId)
      modifies this
      ensures Value() == Finalize(old(Value()), i)
    {
      RememberSeen(i);
      finalized := finalized + {i};
      assistantIdByInflight := assistantIdByInflight - {i};
    }

    method TakeUp(i: InflightId)
      modifies this
      ensures Value() == old(Value()).(seen := old(seen) + {i}, finalized := old(finalized) - {i})
    {
      seen := seen + {i};
      finalized := finalized - {i};
    }

    method Unmap(i: InflightId)
      modifies this
      ensures Value() == old(Value()).(assistantOf := old(assistantIdByInflight) - {i})
    {
      assistantIdByInflight := assistantIdByInflight - {i};
    }

    method UnmapAll(forgetSeen: bool)
      modifies this
      ensures Value() == old(Value()).(assistantOf := map[], seen := if forgetSeen then {} else old(seen))
    {
      assistantIdByInflight := map[];
      if forgetSeen { seen := {}; }
    }

    method Clear()
      modifies this
      ensures Value() == NO_INDEX
    {
      assistantIdByInflight, historicalIdByInflight, seen, finalized := map[], map[], {}, {};
    }
  }

  // What the current run has streamed so far.
  class Buffers {
    var assistantText: string
    var assistantThink: string
    var segments: seq<Segment>
    var toolCalls: seq<ToolCall>
    var warnings: seq<string>
    var citations: seq<Meta>

    function Value(): Body
      reads this
    {
      Body(assistantText, assistantThink, segments, toolCalls, warnings, citations)
    }

    constructor ()
      ensures Value() == NO_BODY
    {
      assistantText, assistantThink, segments, toolCalls, warnings, citations := "", "", [], [], [], [];
    }

    method Clear(emptySegments: seq<Segment>)
      modifies this
      ensures Value() == Body("", "", emptySegments, [], [], [])
    {
      segments, toolCalls, assistantText, assistantThink, citations, warnings := emptySegments, [], "", "", [], [];
    }

    // applyToolEvent; "next" numbers the id made for a call without one.
    method ApplyToolEvent(event: ToolEvent, next: nat) returns (after: nat)
      modifies this
      ensures Value() == ApplyTool(old(Value()), event, Local(next)) && after == next + IdsMade(event)
    {
      after := next + IdsMade(event);
      var id := CallId(event, Local(next));
      var existing := FindTool(toolCalls, id);
      var tool := ToolOf(event, id, existing);
      toolCalls := PutTool(toolCalls, Stored(event, tool, existing));
      if event.ToolRequest? {
        if !HasSegment(segments, id) { segments := segments + [Tool(tool), Text("")]; }
        return;
      }
      var updated, replaced := UpdateToolSegment(segments, tool);
      segments := updated;
      if !replaced {
        NothingReplaced(old(segments), tool);
        segments := segments + [Tool(tool), Text("")];
      }
      if event.citations != [] { citations := event.citations; }
    }

    static lemma NothingReplaced(segments: seq<Segment>, tool: ToolCall)
      requires !HasSegment(segments, tool.id)
      ensures ReplaceTool(segments, tool) == segments
    {
      assert forall k | 0 <= k < |segments| :: !IsToolSegment(segments[k], tool.id);
    }

    method AppendDelta(delta: string)
      modifies this
      ensures Value() == old(Value()).(text := old(assistantText) + delta, segments := AppendText(old(segments), delta))
    {
      assistantText := assistantText + delta;
      if segments != [] && segments[|segments| - 1].Text? {
        var last := segments[|segments| - 1];
        segments := segments[..|segments| - 1] + [last.(content := last.content + delta)];
      } else {
        segments := segments + [Text(delta)];
      }
    }

    method Advance(e: Event, next: nat) returns (after: nat)
      requires Incremental(e)
      modifies this
      ensures Value() == ChatModel.Advance(old(Value()), e, Local(next))
      ensures after == next + if e.ToolEventMessage? then IdsMade(e.event) else 0
    {
      after := next;
      match e {
        case AssistantDelta(_, _, _, delta) => AppendDelta(delta);
        case AnalysisDelta(_, _, _, delta) => assistantThink := assistantThink + delta;
        case StreamWarning(_, _, _, warning) =>
          if warning != "" && warning !in warnings { warnings := warnings + [warning]; }
        case ToolEventMessage(_, _, _, event) => after := ApplyToolEvent(event, next);
      }
    }

    method LoadSnapshot(text: string, think: string, tools: seq<ToolEvent>, next: nat) returns (after: nat)
      modifies this
      ensures (Value(), after) == ApplyTools(SnapshotBody(text, think), tools, next)
    {
      assistantText, assistantThink, toolCalls, segments := text, think, [], [Text(text)];
      citations, warnings := [], [];
      after := next;
      for k := 0 to |tools|
        invariant (Value(), after) == ApplyTools(SnapshotBody(text, think), tools[..k], next)
      {
        assert tools[..k + 1][..k] == tools[..k];
        ghost var before := (Value(), after);
        after := ApplyToolEvent(tools[k], after);
        assert (Value(), after) == (ApplyTool(before.0, tools[k], Local(before.1)), before.1 + IdsMade(tools[k]));
      }
      assert tools[..|tools|] == tools;
    }

    // A failed run that wrote nothing shows its error instead.
    method Finish(e: Event)
      requires e.TurnFinal?
      modifies this
      ensures Value() == FinalBody(e, old(Value()))
    {
      if e.status.FailedFinal? && e.error.Some? && e.error.value != "" && Blank(assistantText) {
        assistantText := e.error.value;
        segments := [Text(e.error.value)];
      }
    }
  }

  // The current run and its stop request.
  class CurrentRun {
    var inflightId: Option<InflightId>
    var inflightSeq: int
    var activeId: Option<Id>
    var status: Status
    var isStreaming: bool
    var stopRequestId: Option<string>
    var stopInflightId: Option<InflightId>

    function Value(): Cursor
      reads this
    {
      Cursor(inflightId, inflightSeq, activeId, status, isStreaming, stopRequestId, stopInflightId)
    }

    constructor ()
      ensures Value() == NO_CURSOR
    {
      inflightId, inflightSeq, activeId, status, isStreaming, stopRequestId, stopInflightId :=
        None, 0, None, Idle, false, None, None;
    }

    method Reset()
      modifies this
      ensures Value() == NO_CURSOR
    {
      inflightId, inflightSeq, activeId, isStreaming, status := None, 0, None, false, Idle;
      stopRequestId, stopInflightId := None, None;
    }

    method Activate(id: Option<Id>)
      modifies this
      ensures Value() == old(Value()).(active := id)
    {
      activeId := id;
    }

    method Hear(seqNo: int)
      modifies this
      ensures Value() == old(Value()).(inflightSeq := Max(old(inflightSeq), seqNo))
    {
      inflightSeq := Max(inflightSeq, seqNo);
    }

    method SetSeq(seqNo: int)
      modifies this
      ensures Value() == old(Value()).(inflightSeq := seqNo)
    {
      inflightSeq := seqNo;
    }

    method Follow(i: Option<InflightId>, streaming: bool)
      modifies this
      ensures Value() == old(Value()).(inflight := i, streaming := streaming)
    {
      inflightId, isStreaming := i, streaming;
    }

    method BeginSend(i: InflightId)
      modifies this
      ensures Value() == old(Value()).(inflight := Some(i), status := Sending, streaming := true)
    {
      inflightId, status, isStreaming := Some(i), Sending, true;
    }

    method FailSend(refused: bool)
      modifies this
      ensures Value() == old(Value()).(streaming := false, status := Idle, inflight := if refused then None
          else old(inflightId))
    {
      if refused { inflightId := None; }
      isStreaming, status := false, Idle;
    }

    // enterStoppingState.
    method EnterStopping(requestId: Option<string>)
      modifies this
      ensures Value() == old(Value()).(status := Stopping, stopInflight := old(inflightId),
        stopRequest := if requestId.Some? && requestId.value != "" then requestId else old(stopRequestId))
    {
      if requestId.Some? && requestId.value != "" { stopRequestId := requestId; }
      stopInflightId := inflightId;
      if status.Stopping? { return; }
      status := Stopping;
    }

    method ClearPendingStop()
      modifies this
      ensures Value() == old(Value()).(stopRequest := None, stopInflight := None)
    {
      stopRequestId, stopInflightId := None, None;
    }

    // The run is over, by a final for i or (None) by an acknowledged stop.
    method End(i: Option<InflightId>)
      modifies this
      ensures Value() == old(Value()).(inflight := i, status := Idle, streaming := false, stopRequest := None,
          stopInflight := None)
    {
      isStreaming, inflightId, status := false, i, Idle;
      ClearPendingStop();
    }
  }

  class ChatStream {
    var conversationId: string
    var idsMade: nat
    const transcript: Transcript
    const bubbles: Bubbles
    const buffers: Buffers
    const run: CurrentRun

    function State(): Chat
      reads this, transcript, bubbles, buffers, run
    {
      Chat(conversationId, transcript.Value(), bubbles.Value(), buffers.Value(), run.Value(), idsMade)
    }

    ghost predicate Valid()
      reads this, transcript, bubbles, buffers, run
    {
      Consistent(State())
    }

    constructor (conversation: string)
      ensures State() == Start(conversation) && Valid()
      ensures fresh(transcript) && fresh(bubbles) && fresh(buffers) && fresh(run)
    {
      conversationId, idsMade := conversation, 0;
      transcript := new Transcript();
      bubbles := new Bubbles();
      buffers := new Buffers();
      run := new CurrentRun();
      new;
      StartConsistent(conversation);
    }

    method MakeId() returns (id: Id)
      modifies this
      ensures id == Local(old(idsMade)) && idsMade == old(idsMade) + 1 && conversationId == old(conversationId)
    {
      id := Local(idsMade);
      idsMade := idsMade + 1;
    }

    // ---- bubbles ----

    // The bubble to reuse: the one mapped to the key, or without a key the active one
    // or a last bubble still processing.
    method FindReusable(key: Option<InflightId>, forceNew: bool) returns (found: Option<Id>)
      ensures found == EnsureTarget(State(), key, forceNew)
    {
      found := None;
      if key.Some? && !forceNew && key.value in bubbles.assistantIdByInflight {
        found := Some(bubbles.assistantIdByInflight[key.value]);
      }
      if found.None? && key.None? { found := run.activeId; }
      if found.None? && key.None? && transcript.messages != [] {
        var last := transcript.messages[|transcript.messages| - 1];
        if last.role.Assistant? && last.streamStatus == Some(Processing) { found := Some(last.id); }
      }
    }

    method EnsureAssistantMessage(key: Option<InflightId>, forceNew: bool, clock: Clock) returns (id: Id)
      modifies this, transcript, bubbles, buffers, run
      ensures State() == Ensure(old(State()), key, forceNew, clock) && id == EnsuredId(old(State()), key, forceNew)
    {
      var found := FindReusable(key, forceNew);
      if found.None? {
        id := MakeId();
        run.Activate(Some(id));
        buffers.Clear([Text("")]);
        bubbles.MapNew(key, id);
        transcript.UpdateMessages(transcript.messages + [NewBubble(id, clock.stamp)]);
      } else {
        id := found.value;
        run.Activate(Some(id));
        bubbles.MapReused(key, id);
      }
    }

    // preMappedAssistantId ?? ensureAssistantMessage(...)
    method ResolveAssistantId(i: InflightId, clock: Clock) returns (id: Id)
      modifies this, transcript, bubbles, buffers, run
      ensures State() == Resolve(old(State()), i, clock) && id == ResolvedId(old(State()), i)
    {
      if i in bubbles.assistantIdByInflight {
        id := bubbles.assistantIdByInflight[i];
      } else {
        id := EnsureAssistantMessage(Key(i), false, clock);
      }
    }

    // ---- transcript events ----

    method TakeIn(e: Event, id: Id)
      requires Incremental(e)
      modifies this, transcript, bubbles, buffers, run
      ensures State() == Absorb(old(State()), e, id)
    {
      ghost var r := State();
      bubbles.RememberSeen(e.inflight);
      run.Follow(Some(e.inflight), true);
      idsMade := buffers.Advance(e, idsMade);
      ghost var live := buffers.Value();
      assert live == Advance(r.live, e, Local(r.nextId));
      transcript.EditMessage(id, NO_PATCH.(body := Some(buffers.Value()), streamStatus := Some(Processing)));
    }

    method OnIncrementalEvent(e: Event, clock: Clock)
      requires Incremental(e)
      modifies this, transcript, bubbles, buffers, run
      ensures State() == OnIncremental(old(State()), e, clock)
    {
      var i := e.inflight;
      if i in bubbles.finalized { return; }
      if run.inflightId.Some? && run.inflightId.value != i { return; }
      var id := ResolveAssistantId(i, clock);
      TakeIn(e, id);
    }

    method AdoptInflight(i: InflightId, text: string, think: string, tools: seq<ToolEvent>, startedAt: Stamp,
                         command: Option<Meta>, clock: Clock)
      modifies this, transcript, bubbles, buffers, run
      ensures State() == AdoptSnapshot(old(State()), i, text, think, tools, startedAt, command, clock)
    {
      var id := EnsureAssistantMessage(Key(i), false, clock);
      bubbles.RememberSeen(i);
      run.Follow(Some(i), true);
      idsMade := buffers.LoadSnapshot(text, think, tools, idsMade);
      transcript.EditMessage(id, StartedPatch(buffers.Value(), startedAt, command));
    }

    method OnSnapshotEvent(e: Event, clock: Clock)
      requires e.InflightSnapshot?
      modifies this, transcript, bubbles, buffers, run
      ensures State() == OnSnapshot(old(State()), e, clock)
    {
      var i := e.inflight;
      if i in bubbles.finalized { return; }
      if run.inflightId.Some? && i != run.inflightId.value && i in bubbles.seen { return; }
      AdoptInflight(i, e.text, e.think, e.toolEvents, e.startedAt, e.command, clock);
    }

    method AdoptUserTurn(i: InflightId)
      modifies bubbles, buffers, run
      ensures State() == AdoptTurn(old(State()), i)
    {
      if i == "" { return; }
      if run.inflightId.Some? && i != run.inflightId.value && !run.status.Sending? {
        // resetAssistantPointer
        run.Activate(None);
        buffers.Clear([]);
      }
      bubbles.TakeUp(i);
      run.Follow(Some(i), run.isStreaming);
    }

    method OnUserTurnEvent(e: Event, clock: Clock)
      requires e.UserTurn?
      modifies this, transcript, bubbles, buffers, run
      ensures State() == OnUserTurn(old(State()), e, clock)
    {
      var i := e.inflight;
      if i != "" && run.inflightId.Some? && i != run.inflightId.value && i in bubbles.seen { return; }
      AdoptUserTurn(i);
      var _ := EnsureAssistantMessage(Key(i), false, clock);
      var bound := if i != "" then Lookup(transcript.optimisticIdByInflight, i) else None;
      ShowUserTurn(bound, e.content, e.createdAt, clock.now);
      run.Follow(run.inflightId, true);
    }

    method AppendUserTurn(content: string, createdAt: Stamp)
      modifies this, transcript
      ensures State() == TurnAppended(old(State()), content, createdAt)
    {
      var id := MakeId();
      transcript.InsertUserTurn(UserMessage(id, content, createdAt, false), run.activeId);
    }

    method ShowUserTurn(bound: Option<Id>, content: string, createdAt: Stamp, now: int)
      modifies this, transcript
      ensures State() == ShowTurn(old(State()), bound, content, createdAt, now)
    {
      var missing := transcript.ConfirmUserTurn(bound, content, createdAt, now);
      if missing { AppendUserTurn(content, createdAt); }
    }

    // getExistingAssistantMessageIdForInflight
    method ExistingAssistantMessage(i: InflightId) returns (id: Option<Id>)
      ensures id == ExistingBubble(State(), i)
    {
      if i in bubbles.assistantIdByInflight { return Some(bubbles.assistantIdByInflight[i]); }
      if i == "" || i !in bubbles.historicalIdByInflight { return None; }
      var bubble := bubbles.historicalIdByInflight[i];
      var ms := transcript.messages;
      for k := 0 to |ms|
        invariant forall j | 0 <= j < k :: !(ms[j].id == bubble && ms[j].role.Assistant?)
      {
        if ms[k].id == bubble && ms[k].role.Assistant? { return Some(bubble); }
      }
      return None;
    }

    method OnFinalEvent(e: Event, clock: Clock)
      requires e.TurnFinal?
      modifies this, transcript, bubbles, buffers, run
      ensures State() == OnFinal(old(State()), e, clock)
    {
      var i := e.inflight;
      if i in bubbles.finalized { return; }
      var mapped := Lookup(bubbles.assistantIdByInflight, i);
      var existing := ExistingAssistantMessage(i);
      var outOfBand := mapped.Some? && run.inflightId != Some(i);
      bubbles.RecordFinal(i);
      if (run.inflightId.Some? && run.inflightId.value != i) || outOfBand {
        if existing.Some? { transcript.EditMessage(existing.value, FinalPatch(e)); }
      } else {
        FinishRun(e, mapped, clock);
      }
    }

    // The rest of a final of the current run, its mapping already dropped.
    method FinishRun(e: Event, mapped: Option<Id>, clock: Clock)
      requires e.TurnFinal?
      modifies this, transcript, bubbles, buffers, run
      ensures State() == FinishWith(old(State()), e, mapped, clock)
    {
      var id: Id;
      if mapped.Some? { id := mapped.value; } else { id := EnsureAssistantMessage(Key(e.inflight), false, clock); }
      run.End(Some(e.inflight));
      buffers.Finish(e);
      transcript.EditMessage(id, FinalPatch(e).(body := Some(buffers.Value())));
    }

    method RemovePendingAssistant(target: Option<InflightId>)
      modifies transcript, bubbles, run
      ensures State() == RemovePending(old(State()), target)
    {
      var pending := run.activeId;
      if target.Some? && target.value in bubbles.assistantIdByInflight {
        pending := Some(bubbles.assistantIdByInflight[target.value]);
      }
      if pending.None? { return; }
      transcript.RemoveIfEmpty(pending.value);
      if target.Some? && target.value != "" { bubbles.Unmap(target.value); }
      if run.activeId == pending { run.Activate(None); }
    }

    method OnCancelAckEvent(e: Event)
      requires e.CancelAck? && e.conversation == conversationId
      modifies transcript, bubbles, run
      ensures State() == OnCancelAck(old(State()), e)
    {
      if !e.noop || !run.status.Stopping? { return; }
      if run.stopRequestId.None? || run.stopRequestId.value != e.requestId { return; }
      RemovePendingAssistant(run.stopInflightId);
      run.End(None);
    }

    method HandleWsEvent(e: Event, clock: Clock)
      requires Valid()
      modifies this, transcript, bubbles, buffers, run
      ensures State() == ChatModel.HandleWsEvent(old(State()), e, clock)
      ensures Valid()
    {
      StepConsistent(State(), Ws(e, clock));
      if e.conversation != conversationId { return; }
      if e.CancelAck? { OnCancelAckEvent(e); return; }
      run.Hear(e.seqNo);
      if e.UserTurn? {
        OnUserTurnEvent(e, clock);
      } else if e.InflightSnapshot? {
        OnSnapshotEvent(e, clock);
      } else if e.TurnFinal? {
        OnFinalEvent(e, clock);
      } else {
        OnIncrementalEvent(e, clock);
      }
    }

    // ---- local operations ----

    method ResetInflightState()
      modifies buffers, run
      ensures State() == ResetInflight(old(State()))
    {
      run.Reset();
      buffers.Clear([]);
    }

    // The active bubble's indicators go out; its message is otherwise rewritten as it is.
    method ClearIndicators()
      modifies transcript
      ensures State() == Touch(old(State()))
    {
      if run.activeId.None? { return; }
      transcript.UpdateMessages(transcript.messages);
    }

    method Stop(requestId: Option<string>)
      requires Valid()
      modifies transcript, run
      ensures State() == StopRun(old(State()), requestId)
      ensures Valid()
    {
      StepConsistent(State(), Step.Stop(requestId));
      ClearIndicators();
      run.EnterStopping(requestId);
    }

    method ForgetConversation(conversation: string)
      modifies this, transcript, bubbles, buffers, run
      ensures State() == Forget(old(State()), conversation)
    {
      ResetInflightState();
      transcript.ClearTracking();
      bubbles.Clear();
      conversationId := conversation;
    }

    method Reset(conversation: string)
      requires Valid()
      modifies this, transcript, bubbles, buffers, run
      ensures State() == ResetAll(old(State()), conversation)
      ensures Valid()
    {
      StepConsistent(State(), Step.Reset(conversation));
      transcript.UpdateMessages([]);
      ForgetConversation(conversation);
    }

    method SetConversation(conversation: string, clearMessages: bool)
      requires Valid()
      modifies this, transcript, bubbles, buffers, run
      ensures State() == ChatModel.SetConversation(old(State()), conversation, clearMessages)
      ensures Valid()
    {
      StepConsistent(State(), Switch(conversation, clearMessages));
      ClearIndicators();
      if clearMessages { transcript.UpdateMessages([]); }
      ForgetConversation(conversation);
    }

    // The effect that runs once a new conversation id is rendered.
    method ConversationRendered()
      requires Valid()
      modifies transcript, bubbles, run
      ensures State() == ConversationEffect(old(State()))
      ensures Valid()
    {
      StepConsistent(State(), Effect);
      bubbles.Clear();
      transcript.ClearTracking();
      run.ClearPendingStop();
    }

    method AppendLocalMessage(m: Message)
      requires Valid() && StepFresh(State(), AddLocal(m))
      modifies transcript
      ensures State() == AppendLocal(old(State()), m)
      ensures Valid()
    {
      StepConsistent(State(), AddLocal(m));
      transcript.UpdateMessages(transcript.messages + [m]);
    }

    method AppendOptimisticUserMessage(content: string, clock: Clock) returns (id: Id)
      requires Valid()
      modifies this, transcript
      ensures State() == AppendOptimistic(old(State()), content, clock) && id == Local(old(idsMade))
      ensures Valid()
    {
      StepConsistent(State(), AddOptimistic(content, clock));
      id := MakeId();
      transcript.Track(id);
      transcript.UpdateMessages(transcript.messages + [UserMessage(id, content, clock.stamp, true)]);
    }

    method BindOptimisticUserMessage(id: Id, i: InflightId)
      requires Valid()
      modifies transcript
      ensures State() == BindOptimistic(old(State()), id, i)
      ensures Valid()
    {
      StepConsistent(State(), Step.Bind(id, i));
      if i == "" || id !in transcript.optimisticIds { return; }
      transcript.Bind(i, id);
    }

    method FinalizeOptimisticUserMessage(id: Id)
      requires Valid()
      modifies transcript
      ensures State() == FinalizeOptimistic(old(State()), id)
      ensures Valid()
    {
      StepConsistent(State(), Settle(id));
      transcript.RemoveOptimisticTracking(id);
      transcript.UpdateMessages(Unoptimistic(transcript.messages, id));
    }

    // send, up to its request; "i" is the inflight id it makes.
    method Send(text: string, ready: bool, i: InflightId, clock: Clock)
      requires Valid()
      modifies this, transcript, bubbles, buffers, run
      ensures State() == SendBegin(old(State()), text, ready, i, clock)
      ensures Valid()
    {
      StepConsistent(State(), Begin(text, ready, i, clock));
      if Blank(text) || run.status.Sending? || !ready { return; }
      PrepareSend(text, i, clock);
      var id := EnsureAssistantMessage(Key(i), true, clock);
      transcript.EditMessage(id, NO_PATCH.(body := Some(buffers.Value()), streamStatus := Some(Processing)));
    }

    method PrepareSend(text: string, i: InflightId, clock: Clock)
      modifies this, transcript, bubbles, buffers, run
      ensures State() == SendPrepared(old(State()), text, i, clock)
    {
      ClearIndicators();
      ResetInflightState();
      bubbles.RememberSeen(i);
      run.BeginSend(i);
      var id := MakeId();
      transcript.UpdateMessages(transcript.messages + [UserMessage(id, text, clock.stamp, false)]);
    }

    method SendAccepted(i: InflightId, conversation: string)
      requires Valid()
      modifies this, bubbles, run
      ensures State() == SendStarted(old(State()), i, conversation)
      ensures Valid()
    {
      StepConsistent(State(), Accepted(i, conversation));
      if i != "" { run.Follow(Some(i), run.isStreaming); }
      if conversation != "" && conversation != conversationId {
        bubbles.UnmapAll(true);
        conversationId := conversation;
      }
    }

    method SendRejected(error: string, refused: bool)
      requires Valid()
      modifies this, transcript, run
      ensures State() == SendFailed(old(State()), error, refused)
      ensures Valid()
    {
      StepConsistent(State(), Rejected(error, refused));
      ShowError(error, refused);
      if run.activeId.Some? {
        transcript.EditMessage(run.activeId.value,
            NO_PATCH.(body := Some(buffers.Value()), streamStatus := Some(Failed)));
      }
    }

    method ShowError(error: string, refused: bool)
      modifies this, transcript, run
      ensures State() == ErrorShown(old(State()), error, refused)
    {
      var id := MakeId();
      transcript.UpdateMessages(transcript.messages + [ErrorBubble(id, error)]);
      run.FailSend(refused);
    }

    // ---- hydration ----

    method IsLive() returns (live: bool)
      ensures live == HasLive(State())
    {
      var ms := transcript.messages;
      live := run.inflightId.Some? || transcript.optimisticIds != {} || run.isStreaming || run.status.Sending?;
      if live { return; }
      for k := 0 to |ms|
        invariant forall j | 0 <= j < k :: !LiveMessage(ms[j])
      {
        if ms[k].streamStatus == Some(Processing) || ms[k].optimistic { return true; }
      }
    }

    method HydrateHistory(conversation: string, history: seq<Entry>, mode: Mode)
      requires Valid() && EntriesKnown(State(), history)
      modifies this, transcript, bubbles, buffers, run
      ensures State() == ChatModel.HydrateHistory(old(State()), conversation, history, mode)
      ensures Valid() <==> TracksEchoes(old(State()), history)
    {
      HydrationConsistent(State(), conversation, history, mode);
      TakeHistory(conversation, history, mode);
    }

    method TakeHistory(conversation: string, history: seq<Entry>, mode: Mode)
      modifies this, transcript, bubbles, buffers, run
      ensures State() == ChatModel.HydrateHistory(old(State()), conversation, history, mode)
    {
      var live := IsLive();
      if conversationId != conversation {
        bubbles.Clear();
      } else if !live {
        bubbles.UnmapAll(false);
      }
      conversationId := conversation;
      var reset := transcript.MergeHistory(live, history, mode);
      if reset { ResetInflightState(); }
    }

    method HydrateInflightSnapshot(conversation: string, s: Snapshot, clock: Clock)
      requires Valid()
      modifies this, transcript, bubbles, buffers, run
      ensures State() == HydrateSnapshot(old(State()), conversation, s, clock)
      ensures Valid()
    {
      StepConsistent(State(), Restore(conversation, s, clock));
      TakeSnapshot(conversation, s, clock);
    }

    method TakeSnapshot(conversation: string, s: Snapshot, clock: Clock)
      modifies this, transcript, bubbles, buffers, run
      ensures State() == HydrateSnapshot(old(State()), conversation, s, clock)
    {
      if conversationId == conversation {
        if run.inflightId.Some? && run.inflightId.value != s.inflight && s.inflight in bubbles.seen { return; }
        if run.inflightId == Some(s.inflight) && s.seqNo <= run.inflightSeq { return; }
      }
      run.SetSeq(s.seqNo);
      if conversationId != conversation { bubbles.Clear(); }
      conversationId := conversation;
      AdoptInflight(s.inflight, s.text, s.think, s.toolEvents, s.startedAt, s.command, clock);
    }
  }
}
