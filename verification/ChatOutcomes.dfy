// What one transcript event leaves on screen and in the refs: which are ignored, and
// what each of the others shows in its bubble.
module ChatOutcomes {
  import opened Prelude
  import opened ChatTypes
  import opened ChatModel
  import opened ChatScreen
  import opened ChatIndex
  import opened ChatFinals
  import ChatLive

  // ---- ignored events ----

  // The highest number heard is remembered even from an event that is ignored.
  predicate OnlyHeard(st: Chat, after: Chat, seqNo: int) {
    && after.cursor.inflightSeq == (if st.cursor.inflightSeq < seqNo then seqNo else st.cursor.inflightSeq)
    && after == st.(cursor := st.cursor.(inflightSeq := after.cursor.inflightSeq))
  }

  // Another run is current.
  predicate OtherCurrent(st: Chat, i: InflightId) { st.cursor.inflight.Some? && st.cursor.inflight.value != i }

  // What the hook does not listen to: other conversations; finals and updates of final
  // runs; updates while another run is current; and snapshots and turns of a run seen
  // before while another is current.
  predicate Ignored(st: Chat, e: Event)
    requires e.Transcript()
  {
    var i := e.inflight;
    if e.UserTurn? then i != "" && OtherCurrent(st, i) && i in st.index.seen
    else if e.InflightSnapshot? then i in st.index.finalized || (OtherCurrent(st, i) && i in st.index.seen)
    else if e.TurnFinal? then i in st.index.finalized
    else i in st.index.finalized || OtherCurrent(st, i)
  }

  lemma IgnoredEvents(st: Chat, e: Event, clock: Clock)
    requires e.Transcript()
    ensures e.conversation != st.conversation ==> HandleWsEvent(st, e, clock) == st
    ensures e.conversation == st.conversation && Ignored(st, e) ==>
      OnlyHeard(st, HandleWsEvent(st, e, clock), e.seqNo)
  {
  }

  // Any other event of a run, but a late final, makes the run current and seen, and opens
  // or ends the stream; a final finalizes the run and gives up a pending stop, anything
  // else leaves status and stop alone and the run not final.
  predicate TakenUp(st: Chat, after: Chat, e: Event)
    requires e.Transcript()
  {
    && after.cursor.inflight == Some(e.inflight) && e.inflight in after.index.seen
    && after.cursor.streaming == !e.TurnFinal? && (e.inflight in after.index.finalized <==> e.TurnFinal?)
    && after.cursor.inflightSeq == (if st.cursor.inflightSeq < e.seqNo then e.seqNo else st.cursor.inflightSeq)
    && after.cursor.status == (if e.TurnFinal? then Idle else st.cursor.status)
    && after.cursor.stopRequest == (if e.TurnFinal? then None else st.cursor.stopRequest)
  }

  // A final that is late: another run is current, or none is and it still has a bubble.
  predicate Late(st: Chat, e: Event)
    requires e.Transcript()
  {
    e.TurnFinal? && st.cursor.inflight != Some(e.inflight)
    && (st.cursor.inflight.Some? || e.inflight in st.index.assistantOf)
  }

  lemma EnsureRefs(st: Chat, key: Option<InflightId>, forceNew: bool, clock: Clock)
    ensures var r := Ensure(st, key, forceNew, clock);
      && r.conversation == st.conversation && r.cursor == st.cursor.(active := r.cursor.active)
      && r.index == st.index.(assistantOf := r.index.assistantOf, historical := r.index.historical)
  {
  }

  lemma EventsTakeUp(st: Chat, e: Event, clock: Clock)
    requires ChatIndexInv(st) && e.Transcript() && e.conversation == st.conversation && !Ignored(st, e) && !Late(st, e)
    requires e.inflight != ""
    ensures TakenUp(st, HandleWsEvent(st, e, clock), e)
  {
    var h := Heard(st, e);
    if e.UserTurn? {
      TurnTakesUp(h, e, clock);
    } else if e.TurnFinal? {
      FinalTakesUp(h, e, clock);
    } else if e.InflightSnapshot? {
      SnapshotTakesUp(h, e, clock);
    } else {
      UpdateTakesUp(h, e, clock);
    }
  }

  // Once the number is heard.
  predicate TakenUpIn(h: Chat, after: Chat, e: Event)
    requires e.Transcript()
  {
    && after.cursor.inflight == Some(e.inflight) && e.inflight in after.index.seen
    && after.cursor.streaming == !e.TurnFinal? && (e.inflight in after.index.finalized <==> e.TurnFinal?)
    && after.cursor.inflightSeq == h.cursor.inflightSeq
    && after.cursor.status == (if e.TurnFinal? then Idle else h.cursor.status)
    && after.cursor.stopRequest == (if e.TurnFinal? then None else h.cursor.stopRequest)
  }

  lemma TurnTakesUp(h: Chat, e: Event, clock: Clock)
    requires e.UserTurn? && e.inflight != "" && !Ignored(h, e)
    ensures TakenUpIn(h, OnUserTurn(h, e, clock), e)
  {
    EnsureRefs(AdoptTurn(h, e.inflight), Key(e.inflight), false, clock);
  }

  lemma FinalTakesUp(h: Chat, e: Event, clock: Clock)
    requires e.TurnFinal? && e.inflight != "" && !Ignored(h, e) && !Late(h, e)
    ensures TakenUpIn(h, OnFinal(h, e, clock), e)
  {
    EnsureRefs(h.(index := Finalize(h.index, e.inflight)), Key(e.inflight), false, clock);
  }

  lemma SnapshotTakesUp(h: Chat, e: Event, clock: Clock)
    requires e.InflightSnapshot? && e.inflight != "" && !Ignored(h, e)
    ensures TakenUpIn(h, OnSnapshot(h, e, clock), e)
  {
    EnsureRefs(h, Key(e.inflight), false, clock);
  }

  lemma UpdateTakesUp(h: Chat, e: Event, clock: Clock)
    requires Incremental(e) && e.inflight != "" && !Ignored(h, e)
    ensures TakenUpIn(h, OnIncremental(h, e, clock), e)
  {
    EnsureRefs(h, Key(e.inflight), false, clock);
  }

  // ---- updates of a run ----

  // What one update adds to what is live; everything else stays. Tool calls are told in
  // ChatLive.
  predicate Adds(before: Body, after: Body, e: Event)
    requires Incremental(e)
  {
    match e
    case AssistantDelta(_, _, _, delta) =>
      after == before.(text := before.text + delta, segments := after.segments)
      && ChatLive.TextOf(after.segments) == ChatLive.TextOf(before.segments) + delta
    case AnalysisDelta(_, _, _, delta) => after == before.(think := before.think + delta)
    case StreamWarning(_, _, _, warning) =>
      after == before.(warnings :=
        if warning == "" || warning in before.warnings then before.warnings else before.warnings + [warning])
    case ToolEventMessage(_, _, _, _) =>
      after == before.(tools := after.tools, segments := after.segments, citations := after.citations)
  }

  lemma AdvanceAdds(live: Body, e: Event, made: Id)
    requires Incremental(e)
    ensures Adds(live, Advance(live, e, made), e)
  {
    if e.AssistantDelta? { ChatLive.AppendTextSpells(live.segments, e.delta); }
  }

  // An update of a run with a bubble: the bubble shows all that is live, and is processing.
  lemma UpdateShown(st: Chat, e: Event, clock: Clock, was: Message)
    requires Incremental(e) && e.conversation == st.conversation && !Ignored(st, e)
    requires Lookup(st.index.assistantOf, e.inflight) == Some(was.id)
    requires was in st.screen.messages && was.role.Assistant?
    ensures var after := HandleWsEvent(st, e, clock);
      && Adds(st.live, after.live, e)
      && was.(body := after.live, streamStatus := Some(Processing)) in after.screen.messages
  {
    var h := Heard(st, e);
    var live := Advance(h.live, e, Local(h.nextId));
    AdvanceAdds(h.live, e, Local(h.nextId));
    SyncShows(h, was, NO_PATCH.(body := Some(live), streamStatus := Some(Processing)));
  }

  // A tool event without a call id is recorded under an id made for it, and none before.
  lemma AnonymousToolIsNew(st: Chat, e: Event, clock: Clock)
    requires e.ToolEventMessage? && e.conversation == st.conversation && !Ignored(st, e) && e.event.callId.None?
    ensures var after := HandleWsEvent(st, e, clock);
      exists k: nat :: st.nextId <= k < after.nextId && FindTool(after.live.tools, Local(k)).Some?
                    && FindTool(after.live.tools, Local(k)).value.parameters == e.event.parameters
  {
    var r := Resolve(Heard(st, e), e.inflight, clock);
    ChatLive.ToolIsRecorded(r.live, e.event, Local(r.nextId));
    assert HandleWsEvent(st, e, clock).live == ApplyTool(r.live, e.event, Local(r.nextId));
  }

  const EMPTY_LIVE := Body("", "", [Text("")], [], [], [])

  // A bubble just made: dated now, empty but for what is live.
  predicate NewlyMade(m: Message, id: Id, stamp: Stamp, live: Body) {
    m == Message(id, Assistant, live, false, Some(Processing), stamp, None, None, None, None)
  }

  lemma EnsureMakes(st: Chat, key: Option<InflightId>, forceNew: bool, clock: Clock)
    requires EnsureTarget(st, key, forceNew).None?
    ensures var r := Ensure(st, key, forceNew, clock);
      && r.live == EMPTY_LIVE && r.cursor.active == Some(Local(st.nextId)) && r.nextId == st.nextId + 1
      && exists m :: m in r.screen.messages && NewlyMade(m, Local(st.nextId), clock.stamp, EMPTY_LIVE)
  {
    var m := NewBubble(Local(st.nextId), clock.stamp);
    assert m in st.screen.messages + [m];
    CollapseClears(st.screen.messages + [m]);
    assert NewlyMade(m, Local(st.nextId), clock.stamp, EMPTY_LIVE);
  }

  lemma UpdateIs(st: Chat, e: Event, clock: Clock)
    requires Incremental(e) && e.conversation == st.conversation && !Ignored(st, e)
    requires e.inflight != "" && e.inflight !in st.index.assistantOf
    ensures var h := Heard(st, e);
      HandleWsEvent(st, e, clock) == Absorb(Ensure(h, Key(e.inflight), false, clock), e, Local(st.nextId))
    ensures EnsureTarget(Heard(st, e), Key(e.inflight), false).None?
  {
  }

  lemma AbsorbShows(r: Chat, e: Event, was: Message)
    requires Incremental(e) && was in r.screen.messages && was.role.Assistant?
    ensures var after := Absorb(r, e, was.id);
      && Adds(r.live, after.live, e) && after.cursor.active == r.cursor.active
      && after.index.assistantOf == r.index.assistantOf
      && was.(body := after.live, streamStatus := Some(Processing)) in after.screen.messages
  {
    var live := Advance(r.live, e, Local(r.nextId));
    AdvanceAdds(r.live, e, Local(r.nextId));
    SyncShows(r, was, NO_PATCH.(body := Some(live), streamStatus := Some(Processing)));
  }

  // An update of a run without a bubble makes one, with nothing of any other run in it.
  lemma UpdateMakesBubble(st: Chat, e: Event, clock: Clock)
    requires Incremental(e) && e.conversation == st.conversation && !Ignored(st, e)
    requires e.inflight != "" && e.inflight !in st.index.assistantOf
    ensures var after, b := HandleWsEvent(st, e, clock), Local(st.nextId);
      && Adds(EMPTY_LIVE, after.live, e) && Lookup(after.index.assistantOf, e.inflight) == Some(b)
      && after.cursor.active == Some(b)
      && exists m :: m in after.screen.messages && NewlyMade(m, b, clock.stamp, after.live)
  {
    UpdateIs(st, e, clock);
    EnsureMakes(Heard(st, e), Key(e.inflight), false, clock);
    var r := Ensure(Heard(st, e), Key(e.inflight), false, clock);
    var m :| m in r.screen.messages && NewlyMade(m, Local(st.nextId), clock.stamp, EMPTY_LIVE);
    AbsorbShows(r, e, m);
    var live := Absorb(r, e, m.id).live;
    assert NewlyMade(m.(body := live, streamStatus := Some(Processing)), m.id, clock.stamp, live);
  }

  // ---- snapshots ----

  // A bubble as a snapshot leaves it: with what is live, the snapshot's command, and its
  // start as date if that is one.
  predicate Restarted(was: Message, m: Message, live: Body, startedAt: Stamp, command: Option<Meta>) {
    m == was.(body := live, streamStatus := Some(Processing), command := command,
              createdAt := if startedAt.ms.Some? then startedAt else was.createdAt)
  }

  // What a snapshot loads: its text and reasoning, no warnings or citations but those of
  // its tool events, and nothing of what was live before.
  predicate Loads(live: Body, text: string, think: string, tools: seq<ToolEvent>) {
    && live.text == text && live.think == think && live.warnings == []
    && (tools == [] ==> live == Body(text, think, [Text(text)], [], [], []))
    && ChatLive.TextOf(live.segments) == text
  }

  lemma {:induction false} ToolsWarnNothing(live: Body, events: seq<ToolEvent>, next: nat)
    ensures ApplyTools(live, events, next).0.warnings == live.warnings
  {
    if events != [] { ToolsWarnNothing(live, events[..|events| - 1], next); }
  }

  lemma AdoptionLoads(
    st: Chat, i: InflightId, text: string, think: string, tools: seq<ToolEvent>, startedAt: Stamp,
    command: Option<Meta>, clock: Clock)
    ensures Loads(AdoptSnapshot(st, i, text, think, tools, startedAt, command, clock).live, text, think, tools)
  {
    ChatLive.AdoptSnapshotLive(st, i, text, think, tools, startedAt, command, clock);
    ToolsWarnNothing(SnapshotBody(text, think), tools, Ensure(st, Key(i), false, clock).nextId);
  }

  lemma AdoptionShows(
    st: Chat, i: InflightId, text: string, think: string, tools: seq<ToolEvent>, startedAt: Stamp,
    command: Option<Meta>, clock: Clock, was: Message)
    requires was in Ensure(st, Key(i), false, clock).screen.messages && was.role.Assistant?
    requires was.id == EnsuredId(st, Key(i), false)
    ensures var after := AdoptSnapshot(st, i, text, think, tools, startedAt, command, clock);
      exists m :: m in after.screen.messages && Restarted(was, m, after.live, startedAt, command)
  {
    var r := Ensure(st, Key(i), false, clock);
    var applied := ApplyTools(SnapshotBody(text, think), tools, r.nextId);
    var p := StartedPatch(applied.0, startedAt, command);
    var x := r.(index := See(r.index, i), live := applied.0, nextId := applied.1,
        cursor := r.cursor.(inflight := Some(i), streaming := true));
    SyncShows(x, was, p);
    assert Restarted(was, Patched(was, p), applied.0, startedAt, command);
    assert AdoptSnapshot(st, i, text, think, tools, startedAt, command, clock) == Sync(x, was.id, p);
  }

  lemma SnapshotShown(st: Chat, e: Event, clock: Clock, was: Message)
    requires e.InflightSnapshot? && e.conversation == st.conversation && !Ignored(st, e)
    requires Lookup(st.index.assistantOf, e.inflight) == Some(was.id) && e.inflight != ""
    requires was in st.screen.messages && was.role.Assistant?
    ensures var after := HandleWsEvent(st, e, clock);
      && Loads(after.live, e.text, e.think, e.toolEvents) && after.cursor.active == Some(was.id)
      && exists m :: m in after.screen.messages && Restarted(was, m, after.live, e.startedAt, e.command)
  {
    var h := Heard(st, e);
    AdoptionLoads(h, e.inflight, e.text, e.think, e.toolEvents, e.startedAt, e.command, clock);
    assert Ensure(h, Key(e.inflight), false, clock).screen == st.screen;
    AdoptionShows(h, e.inflight, e.text, e.think, e.toolEvents, e.startedAt, e.command, clock, was);
  }

  // A snapshot of a run without a bubble makes one.
  lemma SnapshotMakesBubble(st: Chat, e: Event, clock: Clock)
    requires e.InflightSnapshot? && e.conversation == st.conversation && !Ignored(st, e)
    requires e.inflight != "" && e.inflight !in st.index.assistantOf
    ensures var after, b := HandleWsEvent(st, e, clock), Local(st.nextId);
      && Loads(after.live, e.text, e.think, e.toolEvents)
      && Lookup(after.index.assistantOf, e.inflight) == Some(b) && after.cursor.active == Some(b)
      && exists was, m :: NewlyMade(was, b, clock.stamp, EMPTY_LIVE) && m in after.screen.messages
                       && Restarted(was, m, after.live, e.startedAt, e.command)
  {
    var h := Heard(st, e);
    AdoptionLoads(h, e.inflight, e.text, e.think, e.toolEvents, e.startedAt, e.command, clock);
    EnsureMakes(h, Key(e.inflight), false, clock);
    var r := Ensure(h, Key(e.inflight), false, clock);
    var was :| was in r.screen.messages && NewlyMade(was, Local(st.nextId), clock.stamp, EMPTY_LIVE);
    AdoptionShows(h, e.inflight, e.text, e.think, e.toolEvents, e.startedAt, e.command, clock, was);
  }

  // ---- user turns ----

  // What a turn leaves live: a run without a bubble starts empty in a new one; a run with
  // one keeps it, and what was live of another run is cleared, unless a send is waiting
  // for its answer.
  lemma TurnLive(st: Chat, e: Event, clock: Clock)
    requires e.UserTurn? && e.conversation == st.conversation && !Ignored(st, e) && e.inflight != ""
    ensures var after := HandleWsEvent(st, e, clock);
      if e.inflight !in st.index.assistantOf then
        && after.live == EMPTY_LIVE && after.cursor.active == Some(Local(st.nextId))
        && Lookup(after.index.assistantOf, e.inflight) == Some(Local(st.nextId))
      else
        && after.cursor.active == Some(st.index.assistantOf[e.inflight])
        && after.live == if OtherCurrent(st, e.inflight) && !st.cursor.status.Sending? then Body("", "", [], [], [], [])
                         else st.live
  {
  }
}
