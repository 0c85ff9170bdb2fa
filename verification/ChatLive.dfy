// The live buffers: text segments spell the live text, and tool segments belong
// to the tool-call map.
module ChatLive {
  import opened Prelude
  import opened ChatTypes
  import opened ChatModel

  function TextOf(segments: seq<Segment>): string {
    if segments == [] then ""
    else
      var init, last := TextOf(segments[..|segments| - 1]), segments[|segments| - 1];
      if last.Text? then init + last.content else init
  }

  predicate DistinctTools(tools: seq<ToolCall>) {
    forall i, j | 0 <= i < j < |tools| :: tools[i].id != tools[j].id
  }

  predicate DistinctToolSegments(segments: seq<Segment>) {
    forall i, j | 0 <= i < j < |segments| && segments[i].Tool? && segments[j].Tool? ::
      segments[i].tool.id != segments[j].tool.id
  }

  predicate SegmentsMapped(b: Body) {
    forall k | 0 <= k < |b.segments| && b.segments[k].Tool? :: HasTool(b.tools, b.segments[k].tool.id)
  }

  // Warnings are kept once each, and never empty.
  predicate WarningsOnce(warnings: seq<string>) {
    "" !in warnings && forall i, j | 0 <= i < j < |warnings| :: warnings[i] != warnings[j]
  }

  // No two text segments touch, and text follows every tool segment.
  predicate Alternates(segments: seq<Segment>) {
    && (forall k | 0 < k < |segments| :: segments[k].Text? == !segments[k - 1].Text?)
    && (segments != [] ==> segments[|segments| - 1].Text?)
  }

  predicate LiveInv(b: Body) {
    && TextOf(b.segments) == b.text && WarningsOnce(b.warnings) && Alternates(b.segments)
    && DistinctTools(b.tools) && DistinctToolSegments(b.segments) && SegmentsMapped(b)
  }

  // Every tool call also has its segment.
  predicate ToolsShown(b: Body) {
    forall k | 0 <= k < |b.tools| :: HasSegment(b.segments, b.tools[k].id)
  }

  // ---- text ----

  lemma TextSnoc(segments: seq<Segment>, s: Segment)
    ensures TextOf(segments + [s]) == if s.Text? then TextOf(segments) + s.content else TextOf(segments)
  {
    assert (segments + [s])[..|segments|] == segments;
  }

  lemma JoinsInAnyOrder(a: string, b: string, c: string)
    ensures a + b + c == a + (b + c)
  {
  }

  lemma AppendTextSpells(segments: seq<Segment>, delta: string)
    ensures TextOf(AppendText(segments, delta)) == TextOf(segments) + delta
  {
    var n := |segments| - 1;
    if segments != [] && segments[n].Text? {
      var init, last := segments[..n], segments[n].content;
      TextSnoc(init, segments[n]);
      assert segments == init + [segments[n]];
      TextSnoc(init, Text(last + delta));
      JoinsInAnyOrder(TextOf(init), last, delta);
    } else {
      TextSnoc(segments, Text(delta));
    }
  }

  lemma AppendTextTools(b: Body, delta: string)
    requires LiveInv(b)
    ensures DistinctToolSegments(AppendText(b.segments, delta))
    ensures SegmentsMapped(b.(segments := AppendText(b.segments, delta))) && Alternates(AppendText(b.segments, delta))
    ensures forall id :: HasSegment(AppendText(b.segments, delta), id) <==> HasSegment(b.segments, id)
  {
    var after := AppendText(b.segments, delta);
    assert forall k | 0 <= k < |after| && after[k].Tool? :: k < |b.segments| && after[k] == b.segments[k];
    forall id ensures HasSegment(after, id) <==> HasSegment(b.segments, id) {
      if HasSegment(b.segments, id) {
        var k :| 0 <= k < |b.segments| && IsToolSegment(b.segments[k], id);
        assert IsToolSegment(after[k], id);
      }
      if HasSegment(after, id) {
        var k :| 0 <= k < |after| && IsToolSegment(after[k], id);
        assert IsToolSegment(b.segments[k], id);
      }
    }
  }

  lemma {:induction false} ReplaceToolSpells(segments: seq<Segment>, tool: ToolCall)
    ensures TextOf(ReplaceTool(segments, tool)) == TextOf(segments)
  {
    if segments != [] {
      var n := |segments| - 1;
      ReplaceToolSpells(segments[..n], tool);
      assert ReplaceTool(segments, tool)[..n] == ReplaceTool(segments[..n], tool);
    }
  }

  // ---- the tool-call map ----

  lemma {:induction false} PutToolKeys(tools: seq<ToolCall>, tool: ToolCall)
    requires DistinctTools(tools)
    ensures DistinctTools(PutTool(tools, tool))
    ensures forall id :: HasTool(PutTool(tools, tool), id) <==> HasTool(tools, id) || id == tool.id
  {
    var after := PutTool(tools, tool);
    if tools == [] {
      assert after == [tool];
      assert HasTool(after, tool.id) by { assert after[0].id == tool.id; }
    } else if tools[0].id == tool.id {
      assert forall k | 0 <= k < |tools| :: after[k].id == tools[k].id;
      assert after[0].id == tool.id;
      assert forall id | HasTool(tools, id) :: HasTool(after, id);
    } else {
      PutToolKeys(tools[1..], tool);
      PutToolCons(tools, tool);
    }
  }

  lemma PutToolCons(tools: seq<ToolCall>, tool: ToolCall)
    requires tools != [] && tools[0].id != tool.id && DistinctTools(tools)
    requires var rest := PutTool(tools[1..], tool);
      DistinctTools(rest) && forall id :: HasTool(rest, id) <==> HasTool(tools[1..], id) || id == tool.id
    ensures DistinctTools(PutTool(tools, tool))
    ensures forall id :: HasTool(PutTool(tools, tool), id) <==> HasTool(tools, id) || id == tool.id
  {
    var rest, after := PutTool(tools[1..], tool), PutTool(tools, tool);
    assert after == [tools[0]] + rest;
    HasToolCons(tools[0], rest);
    HasToolCons(tools[0], tools[1..]);
    assert tools == [tools[0]] + tools[1..];
    assert !HasTool(tools[1..], tools[0].id);
    assert forall k | 0 <= k < |rest| :: HasTool(rest, rest[k].id);
  }

  lemma HasToolCons(t: ToolCall, rest: seq<ToolCall>)
    ensures forall id :: HasTool([t] + rest, id) <==> t.id == id || HasTool(rest, id)
  {
    forall id ensures HasTool([t] + rest, id) <==> t.id == id || HasTool(rest, id) {
      if t.id == id { assert ([t] + rest)[0].id == id; }
      if k :| 0 <= k < |rest| && rest[k].id == id { assert ([t] + rest)[k + 1].id == id; }
      if k :| 0 <= k < |[t] + rest| && ([t] + rest)[k].id == id {
        assert k > 0 ==> rest[k - 1].id == id;
      }
    }
  }

  // ---- tool events ----

  lemma AlternatesAlike(a: seq<Segment>, b: seq<Segment>)
    requires Alternates(a) && |b| == |a| && forall k | 0 <= k < |a| :: b[k].Text? == a[k].Text?
    ensures Alternates(b)
  {
  }

  lemma ReplaceToolSegments(b: Body, tool: ToolCall)
    ensures DistinctToolSegments(b.segments) ==> DistinctToolSegments(ReplaceTool(b.segments, tool))
    ensures Alternates(b.segments) ==> Alternates(ReplaceTool(b.segments, tool))
    ensures forall id :: HasSegment(ReplaceTool(b.segments, tool), id) <==> HasSegment(b.segments, id)
  {
    var after := ReplaceTool(b.segments, tool);
    assert forall k, id | 0 <= k < |after| :: IsToolSegment(after[k], id) <==> IsToolSegment(b.segments[k], id);
    if Alternates(b.segments) { AlternatesAlike(b.segments, after); }
    forall id ensures HasSegment(after, id) <==> HasSegment(b.segments, id) {
      if k :| 0 <= k < |after| && IsToolSegment(after[k], id) { assert IsToolSegment(b.segments[k], id); }
      if k :| 0 <= k < |after| && IsToolSegment(b.segments[k], id) { assert IsToolSegment(after[k], id); }
    }
  }

  lemma AlternatesGrown(segments: seq<Segment>, tool: ToolCall)
    requires Alternates(segments)
    ensures Alternates(segments + [Tool(tool), Text("")])
  {
    var after, n := segments + [Tool(tool), Text("")], |segments|;
    forall k | 0 < k < |after| ensures after[k].Text? == !after[k - 1].Text? {
      if k < n { assert after[k] == segments[k] && after[k - 1] == segments[k - 1]; }
    }
  }

  lemma NewSegmentIds(segments: seq<Segment>, tool: ToolCall, id: Id)
    ensures HasSegment(segments + [Tool(tool), Text("")], id) <==> HasSegment(segments, id) || id == tool.id
  {
    var after := segments + [Tool(tool), Text("")];
    assert IsToolSegment(after[|segments|], tool.id);
    if HasSegment(segments, id) {
      var k :| 0 <= k < |segments| && IsToolSegment(segments[k], id);
      assert IsToolSegment(after[k], id);
    }
    if HasSegment(after, id) {
      var k :| 0 <= k < |after| && IsToolSegment(after[k], id);
      if k < |segments| { assert IsToolSegment(segments[k], id); }
    }
  }

  lemma NewToolDistinct(segments: seq<Segment>, tool: ToolCall)
    requires DistinctToolSegments(segments) && !HasSegment(segments, tool.id)
    ensures DistinctToolSegments(segments + [Tool(tool), Text("")])
  {
    assert forall k | 0 <= k < |segments| :: !IsToolSegment(segments[k], tool.id);
  }

  lemma NewToolSpells(segments: seq<Segment>, tool: ToolCall)
    ensures TextOf(segments + [Tool(tool), Text("")]) == TextOf(segments)
  {
    assert segments + [Tool(tool), Text("")] == segments + [Tool(tool)] + [Text("")];
    TextSnoc(segments, Tool(tool));
    TextSnoc(segments + [Tool(tool)], Text(""));
  }

  lemma NewToolSegments(segments: seq<Segment>, tool: ToolCall)
    requires DistinctToolSegments(segments) && !HasSegment(segments, tool.id) && Alternates(segments)
    ensures var after := segments + [Tool(tool), Text("")];
      && DistinctToolSegments(after) && Alternates(after) && TextOf(after) == TextOf(segments)
      && forall id :: HasSegment(after, id) <==> HasSegment(segments, id) || id == tool.id
  {
    AlternatesGrown(segments, tool);
    NewToolDistinct(segments, tool);
    NewToolSpells(segments, tool);
    forall id ensures HasSegment(segments + [Tool(tool), Text("")], id) <==> HasSegment(segments, id) || id == tool.id {
      NewSegmentIds(segments, tool, id);
    }
  }

  // In terms of which ids have a segment and which have a map entry.
  ghost predicate SegmentIdsMapped(b: Body) { forall id | HasSegment(b.segments, id) :: HasTool(b.tools, id) }

  ghost predicate ToolIdsShown(b: Body) { forall id | HasTool(b.tools, id) :: HasSegment(b.segments, id) }

  lemma ByIds(b: Body)
    ensures SegmentsMapped(b) <==> SegmentIdsMapped(b)
    ensures ToolsShown(b) <==> ToolIdsShown(b)
  {
    if SegmentIdsMapped(b) {
      forall k | 0 <= k < |b.segments| && b.segments[k].Tool? ensures HasTool(b.tools, b.segments[k].tool.id) {
        assert IsToolSegment(b.segments[k], b.segments[k].tool.id);
      }
    }
    if ToolIdsShown(b) {
      forall k | 0 <= k < |b.tools| ensures HasSegment(b.segments, b.tools[k].id) {
        assert HasTool(b.tools, b.tools[k].id);
      }
    }
  }

  // A tool event puts its call in the map and shows it; nothing else appears or goes.
  lemma ApplyToolIds(live: Body, e: ToolEvent, made: Id)
    requires LiveInv(live)
    ensures var b := ApplyTool(live, e, made);
      && b.text == live.text && b.warnings == live.warnings && TextOf(b.segments) == TextOf(live.segments)
      && DistinctTools(b.tools) && DistinctToolSegments(b.segments) && Alternates(b.segments)
      && (forall id :: HasTool(b.tools, id) <==> HasTool(live.tools, id) || id == CallId(e, made))
      && (forall id :: HasSegment(b.segments, id) <==> HasSegment(live.segments, id) || id == CallId(e, made))
  {
    var id := CallId(e, made);
    var existing := FindTool(live.tools, id);
    var tool := ToolOf(e, id, existing);
    PutToolKeys(live.tools, Stored(e, tool, existing));
    if !HasSegment(live.segments, id) {
      NewToolSegments(live.segments, tool);
    } else {
      ReplaceToolSegments(live, tool);
      ReplaceToolSpells(live.segments, tool);
    }
  }

  lemma ApplyToolKeeps(live: Body, e: ToolEvent, made: Id)
    requires LiveInv(live)
    ensures LiveInv(ApplyTool(live, e, made))
    ensures ToolsShown(live) ==> ToolsShown(ApplyTool(live, e, made))
  {
    ApplyToolIds(live, e, made);
    ByIds(live);
    ByIds(ApplyTool(live, e, made));
  }

  lemma {:induction false} ApplyToolsKeeps(live: Body, events: seq<ToolEvent>, next: nat)
    requires LiveInv(live)
    ensures LiveInv(ApplyTools(live, events, next).0)
    ensures ToolsShown(live) ==> ToolsShown(ApplyTools(live, events, next).0)
    ensures var b := ApplyTools(live, events, next).0; b.text == live.text && b.think == live.think
  {
    if events != [] {
      var n := |events| - 1;
      ApplyToolsKeeps(live, events[..n], next);
      var init := ApplyTools(live, events[..n], next);
      ApplyToolKeeps(init.0, events[n], Local(init.1));
      ApplyToolIds(init.0, events[n], Local(init.1));
    }
  }

  lemma {:induction false} PutThenFind(tools: seq<ToolCall>, tool: ToolCall)
    ensures FindTool(PutTool(tools, tool), tool.id) == Some(tool)
  {
    if tools != [] && tools[0].id != tool.id { PutThenFind(tools[1..], tool); }
  }

  lemma {:induction false} PutKeepsOthers(tools: seq<ToolCall>, tool: ToolCall, id: Id)
    requires id != tool.id
    ensures FindTool(PutTool(tools, tool), id) == FindTool(tools, id)
  {
    if tools != [] {
      if tools[0].id == tool.id {
        assert PutTool(tools, tool)[1..] == tools[1..];
      } else {
        PutKeepsOthers(tools[1..], tool, id);
      }
    }
  }

  function ToolIds(tools: seq<ToolCall>): seq<Id> {
    if tools == [] then [] else [tools[0].id] + ToolIds(tools[1..])
  }

  // A call keeps its place in the map; a new one goes last.
  lemma {:induction false} PutKeepsPlaces(tools: seq<ToolCall>, tool: ToolCall)
    ensures ToolIds(PutTool(tools, tool))
         == if tool.id in ToolIds(tools) then ToolIds(tools) else ToolIds(tools) + [tool.id]
  {
    if tools == [] {
      assert [tool][1..] == [];
    } else if tools[0].id == tool.id {
      assert ([tool] + tools[1..])[1..] == tools[1..];
    } else {
      var rest := PutTool(tools[1..], tool);
      PutKeepsPlaces(tools[1..], tool);
      assert ([tools[0]] + rest)[1..] == rest;
    }
  }

  // What a call looks like after an event, given what it was before. A request is not
  // answered yet, but keeps the payload and errors an earlier result left; a result
  // failed if it has an error or says so, and keeps the name if it brings none.
  predicate Records(e: ToolEvent, was: Option<ToolCall>, now: ToolCall) {
    && now.parameters == e.parameters && now.stage == e.stage
    && (if e.ToolRequest? then
          && now.status == Requesting && now.name == e.name
          && now.payload == (if was.Some? then was.value.payload else None)
          && now.errorTrimmed == (if was.Some? then was.value.errorTrimmed else None)
          && now.errorFull == (if was.Some? then was.value.errorFull else None)
        else
          && now.payload == e.payload && now.errorTrimmed == e.errorTrimmed && now.errorFull == e.errorFull
          && now.name == (if e.name.None? && was.Some? then was.value.name else e.name)
          && (e.stage == Some("error") || e.errorTrimmed.Some? || e.errorFull.Some? ==> now.status == ToolError)
          && (e.stage != Some("error") && e.errorTrimmed.None? && e.errorFull.None? ==> now.status == ToolDone))
  }

  // A call's segment shows it as the event does; only the map remembers old results.
  predicate SegmentShows(s: Segment, e: ToolEvent, now: ToolCall) {
    s.Tool? && s.tool == if e.ToolRequest? then now.(payload := None, errorTrimmed := None, errorFull := None) else now
  }

  // One tool event: its call is recorded under its id (or a new one), every other call
  // stays, and the order of calls does; a call without a segment gets one at the end with
  // room for text after it, a result is shown in every segment of its call, and a later
  // request in none; citations are replaced by a result that has some.
  lemma ToolIsRecorded(live: Body, e: ToolEvent, made: Id)
    ensures var b, id := ApplyTool(live, e, made), if e.callId.Some? then Given(e.callId.value) else made;
      && FindTool(b.tools, id).Some? && FindTool(b.tools, id).value.id == id
      && Records(e, FindTool(live.tools, id), FindTool(b.tools, id).value)
      && (forall other | other != id :: FindTool(b.tools, other) == FindTool(live.tools, other))
      && ToolIds(b.tools) == (if id in ToolIds(live.tools) then ToolIds(live.tools) else ToolIds(live.tools) + [id])
      && (if !HasSegment(live.segments, id) then
            && |b.segments| == |live.segments| + 2 && live.segments <= b.segments
            && SegmentShows(b.segments[|live.segments|], e, FindTool(b.tools, id).value)
            && b.segments[|live.segments| + 1] == Text("")
          else
            && |b.segments| == |live.segments|
            && forall k | 0 <= k < |b.segments| ::
                 if e.ToolResult? && IsToolSegment(live.segments[k], id)
                 then SegmentShows(b.segments[k], e, FindTool(b.tools, id).value)
                 else b.segments[k] == live.segments[k])
      && b.citations == (if e.ToolResult? && e.citations != [] then e.citations else live.citations)
      && b.text == live.text && b.think == live.think && b.warnings == live.warnings
  {
    var id := CallId(e, made);
    var existing := FindTool(live.tools, id);
    var tool := ToolOf(e, id, existing);
    PutThenFind(live.tools, Stored(e, tool, existing));
    PutKeepsPlaces(live.tools, Stored(e, tool, existing));
    forall other | other != id ensures FindTool(ApplyTool(live, e, made).tools, other) == FindTool(live.tools, other) {
      PutKeepsOthers(live.tools, Stored(e, tool, existing), other);
    }
  }

  // One event after another: what is live, and the next id to be made.
  function ApplyNext(state: (Body, nat), e: ToolEvent): (Body, nat) {
    (ApplyTool(state.0, e, Local(state.1)), if e.callId.None? then state.1 + 1 else state.1)
  }

  // A snapshot's tool events have the effect they have one by one, from the first to the
  // last, each call without an id under a new one.
  lemma ToolsInOrder(live: Body, events: seq<ToolEvent>, next: nat)
    ensures ApplyTools(live, events, next) == FoldFirst(ApplyNext, (live, next), events)
  {
    ToolsFold(live, events, next);
    FoldsAgree(ApplyNext, (live, next), events);
  }

  lemma {:induction false} ToolsFold(live: Body, events: seq<ToolEvent>, next: nat)
    ensures ApplyTools(live, events, next) == FoldLast(ApplyNext, (live, next), events)
  {
    if events != [] { ToolsFold(live, events[..|events| - 1], next); }
  }

  // A request that arrives after its result keeps the payload and the error, but
  // sets the call back to requesting.
  lemma LateRequestKeepsResult(live: Body, result: ToolEvent, request: ToolEvent, made: Id)
    requires result.ToolResult? && request.ToolRequest? && result.callId.Some? && request.callId == result.callId
    ensures var b, id := ApplyTool(ApplyTool(live, result, made), request, made), CallId(result, made);
      && FindTool(b.tools, id).Some? && FindTool(b.tools, id).value.status.Requesting?
          && FindTool(b.tools, id).value.payload == result.payload
      && FindTool(b.tools, id).value.errorFull == result.errorFull
  {
    ToolIsRecorded(live, result, made);
    ToolIsRecorded(ApplyTool(live, result, made), request, made);
  }

  // ---- steps ----

  lemma FreshBodies(text: string, think: string)
    ensures LiveInv(NO_BODY) && ToolsShown(NO_BODY)
    ensures LiveInv(SnapshotBody(text, think)) && ToolsShown(SnapshotBody(text, think))
  {
    assert [Text(text)][..0] == [];
  }

  lemma DeltaKeeps(live: Body, delta: string)
    requires LiveInv(live)
    ensures var b := live.(text := live.text + delta, segments := AppendText(live.segments, delta));
      LiveInv(b) && (ToolsShown(live) ==> ToolsShown(b))
  {
    AppendTextSpells(live.segments, delta);
    AppendTextTools(live, delta);
  }

  lemma AdvanceKeeps(live: Body, e: Event, made: Id)
    requires LiveInv(live)
    ensures LiveInv(Advance(live, e, made))
    ensures ToolsShown(live) ==> ToolsShown(Advance(live, e, made))
  {
    match e {
      case AssistantDelta(_, _, _, delta) => DeltaKeeps(live, delta);
      case ToolEventMessage(_, _, _, event) => ApplyToolKeeps(live, event, made);
      case _ =>
    }
  }

  lemma FinalBodyKeeps(e: Event, live: Body)
    requires e.TurnFinal? && LiveInv(live)
    ensures LiveInv(FinalBody(e, live))
  {
    if ShowsError(e, live) { assert [Text(e.error.value)][..0] == []; }
  }

  lemma EnsureLive(st: Chat, key: Option<InflightId>, forceNew: bool, clock: Clock)
    requires LiveInv(st.live)
    ensures LiveInv(Ensure(st, key, forceNew, clock).live)
    ensures ToolsShown(st.live) ==> ToolsShown(Ensure(st, key, forceNew, clock).live)
  {
    FreshBodies("", "");
    assert SnapshotBody("", "") == Body("", "", [Text("")], [], [], []);
  }

  lemma AdoptSnapshotLive(
    st: Chat, i: InflightId, text: string, think: string, tools: seq<ToolEvent>, startedAt: Stamp,
    command: Option<Meta>, clock: Clock)
    ensures var a := AdoptSnapshot(st, i, text, think, tools, startedAt, command, clock);
      LiveInv(a.live) && ToolsShown(a.live) && a.live.text == text && a.live.think == think
  {
    FreshBodies(text, think);
    ApplyToolsKeeps(SnapshotBody(text, think), tools, Ensure(st, Key(i), false, clock).nextId);
  }

  // The one step after which a tool call may have no segment: a failed final of the
  // current run that shows its error in place of an empty reply.
  predicate FinalShowsError(st: Chat, e: Event, clock: Clock) {
    && e.TurnFinal? && e.inflight !in st.index.finalized && !OutOfBand(st, e.inflight)
    && ShowsError(e, Resolve(st, e.inflight, clock).live)
  }

  predicate ErrorReplaces(st: Chat, step: Step) {
    && step.Ws? && step.event.TurnFinal? && step.event.conversation == st.conversation
    && FinalShowsError(st, step.event, step.clock)
  }

  // What is live after a final.
  lemma FinalLive(st: Chat, e: Event, clock: Clock)
    requires e.TurnFinal?
    ensures var r := Resolve(st, e.inflight, clock);
      OnFinal(st, e, clock).live
        == if e.inflight in st.index.finalized || OutOfBand(st, e.inflight) then st.live else FinalBody(e, r.live)
  {
    ResolvedLive(st, st.(index := Finalize(st.index, e.inflight)), e.inflight, clock);
  }

  lemma OnFinalLive(st: Chat, e: Event, clock: Clock)
    requires LiveInv(st.live) && e.TurnFinal?
    ensures LiveInv(OnFinal(st, e, clock).live)
    ensures ToolsShown(st.live) && !FinalShowsError(st, e, clock) ==> ToolsShown(OnFinal(st, e, clock).live)
  {
    FinalLive(st, e, clock);
    EnsureLive(st, Key(e.inflight), false, clock);
    FinalBodyKeeps(e, Resolve(st, e.inflight, clock).live);
  }

  // Dropping a mapping does not change which live buffers a final works on.
  lemma ResolvedLive(h: Chat, x: Chat, i: InflightId, clock: Clock)
    requires x == h.(index := Finalize(h.index, i))
    ensures (if i in h.index.assistantOf then x else Ensure(x, Key(i), false, clock)).live == Resolve(h, i, clock).live
  {
  }

  lemma IncrementalLive(st: Chat, e: Event, clock: Clock)
    requires Incremental(e)
    ensures var r := Resolve(st, e.inflight, clock);
      OnIncremental(st, e, clock).live == st.live
      || OnIncremental(st, e, clock).live == Advance(r.live, e, Local(r.nextId))
    ensures Resolve(st, e.inflight, clock) == st
         || Resolve(st, e.inflight, clock) == Ensure(st, Key(e.inflight), false, clock)
  {
  }

  lemma OnIncrementalLive(st: Chat, e: Event, clock: Clock)
    requires LiveInv(st.live) && Incremental(e)
    ensures LiveInv(OnIncremental(st, e, clock).live)
    ensures ToolsShown(st.live) ==> ToolsShown(OnIncremental(st, e, clock).live)
  {
    IncrementalLive(st, e, clock);
    EnsureLive(st, Key(e.inflight), false, clock);
    var r := Resolve(st, e.inflight, clock);
    AdvanceKeeps(r.live, e, Local(r.nextId));
  }

  lemma HeardFinal(st: Chat, e: Event, clock: Clock)
    requires e.TurnFinal?
    ensures FinalShowsError(Heard(st, e), e, clock) == FinalShowsError(st, e, clock)
  {
  }

  lemma OnUserTurnLive(st: Chat, e: Event, clock: Clock)
    requires LiveInv(st.live) && e.UserTurn?
    ensures LiveInv(OnUserTurn(st, e, clock).live)
    ensures ToolsShown(st.live) ==> ToolsShown(OnUserTurn(st, e, clock).live)
  {
    FreshBodies("", "");
    EnsureLive(AdoptTurn(st, e.inflight), Key(e.inflight), false, clock);
  }

  lemma HandleWsEventLive(st: Chat, e: Event, clock: Clock)
    requires LiveInv(st.live)
    ensures LiveInv(HandleWsEvent(st, e, clock).live)
    ensures ToolsShown(st.live) && !ErrorReplaces(st, Ws(e, clock)) ==> ToolsShown(HandleWsEvent(st, e, clock).live)
  {
    var h := Heard(st, e);
    if e.conversation != st.conversation || e.CancelAck? {
    } else if e.UserTurn? {
      OnUserTurnLive(h, e, clock);
    } else if e.InflightSnapshot? {
      AdoptSnapshotLive(h, e.inflight, e.text, e.think, e.toolEvents, e.startedAt, e.command, clock);
    } else if e.TurnFinal? {
      OnFinalLive(h, e, clock);
      HeardFinal(st, e, clock);
    } else {
      OnIncrementalLive(h, e, clock);
    }
  }

  lemma StepKeepsLive(st: Chat, step: Step)
    requires LiveInv(st.live)
    ensures LiveInv(Next(st, step).live)
    ensures ToolsShown(st.live) && !ErrorReplaces(st, step) ==> ToolsShown(Next(st, step).live)
  {
    FreshBodies("", "");
    match step {
      case Ws(e, clock) => HandleWsEventLive(st, e, clock);
      case Begin(text, ready, i, clock) => SendBeginLive(st, text, ready, i, clock);
      case Restore(conversation, s, clock) =>
        AdoptSnapshotLive(Rebase(st, conversation, s.seqNo), s.inflight, s.text, s.think, s.toolEvents, s.startedAt,
            s.command, clock);
      case _ =>
    }
  }

  lemma SendBeginLive(st: Chat, text: string, ready: bool, i: InflightId, clock: Clock)
    requires LiveInv(st.live)
    ensures var u := SendBegin(st, text, ready, i, clock);
      LiveInv(u.live) && (ToolsShown(st.live) ==> ToolsShown(u.live))
  {
    if !Blank(text) && !st.cursor.status.Sending? && ready {
      FreshBodies("", "");
      var u := SendPrepared(st, text, i, clock);
      EnsureLive(u, Key(i), true, clock);
    }
  }

  // In every reachable state the text segments spell the live text, tool segments
  // have distinct ids, and each is in the tool-call map.
  lemma {:induction false} RunKeepsLive(conversation: string, steps: seq<Step>)
    ensures LiveInv(Run(conversation, steps).live)
  {
    FreshBodies("", "");
    if steps != [] {
      var n := |steps| - 1;
      RunKeepsLive(conversation, steps[..n]);
      StepKeepsLive(Run(conversation, steps[..n]), steps[n]);
    }
  }

  // Until a failed final replaces the segments, the two id sets are equal.
  lemma {:induction false} RunShowsTools(conversation: string, steps: seq<Step>)
    requires forall k | 0 <= k < |steps| :: !ErrorReplaces(Run(conversation, steps[..k]), steps[k])
    ensures var live := Run(conversation, steps).live;
      forall id :: HasTool(live.tools, id) <==> HasSegment(live.segments, id)
  {
    RunShowsToolsStep(conversation, steps);
    RunKeepsLive(conversation, steps);
    ByIds(Run(conversation, steps).live);
  }

  lemma {:induction false} RunShowsToolsStep(conversation: string, steps: seq<Step>)
    requires forall k | 0 <= k < |steps| :: !ErrorReplaces(Run(conversation, steps[..k]), steps[k])
    ensures ToolsShown(Run(conversation, steps).live)
  {
    FreshBodies("", "");
    if steps != [] {
      var n := |steps| - 1;
      assert forall k | 0 <= k < n :: steps[..n][..k] == steps[..k];
      RunShowsToolsStep(conversation, steps[..n]);
      RunKeepsLive(conversation, steps[..n]);
      StepKeepsLive(Run(conversation, steps[..n]), steps[n]);
    }
  }
}
