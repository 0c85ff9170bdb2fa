// The stop handshake over whole runs, and what may mark a bubble stopped.
module ChatStop {
  import opened Prelude
  import opened ChatTypes
  import opened ChatModel
  import opened ChatHistory
  import opened ChatScreen
  import opened ChatIndex
  import opened ChatIsolation

  // ---- requests and acknowledgements ----

  // The step stops the run under this request id.
  predicate Requests(step: Step, r: string) { step.Stop? && step.requestId == Some(r) && r != "" }

  predicate Takes(st: Chat, step: Step, r: string) { step.Ws? && AckTaken(st, step.event) && step.event.requestId == r }

  function RequestCount(steps: seq<Step>, r: string): nat {
    if steps == [] then 0
    else RequestCount(steps[..|steps| - 1], r) + if Requests(steps[|steps| - 1], r) then 1 else 0
  }

  // Which steps of a run take an acknowledgement of r.
  function Taken(conversation: string, steps: seq<Step>, r: string): (t: seq<bool>)
    ensures |t| == |steps|
    ensures forall k | 0 <= k < |t| :: t[k] == Takes(Run(conversation, steps[..k]), steps[k], r)
  {
    seq(|steps|, k requires 0 <= k < |steps| => Takes(Run(conversation, steps[..k]), steps[k], r))
  }

  function Count(flags: seq<bool>): nat {
    if flags == [] then 0 else Count(flags[..|flags| - 1]) + if flags[|flags| - 1] then 1 else 0
  }

  // An acknowledgement that is taken ends the pending stop it names; any other
  // leaves everything as it is.
  lemma AckEndsItsOwnStop(st: Chat, step: Step)
    requires step.Ws? && step.event.CancelAck?
    ensures !AckTaken(st, step.event) ==> Next(st, step) == st
    ensures AckTaken(st, step.event) ==>
      && st.cursor.stopRequest == Some(step.event.requestId)
      && var c := Next(st, step).cursor;
         c.stopRequest == None && c.stopInflight == None && c.status == Idle && c.inflight == None && !c.streaming
  {
  }

  lemma EventsOnlyClearRequest(st: Chat, e: Event, clock: Clock)
    ensures var r := HandleWsEvent(st, e, clock).cursor.stopRequest;
      (r == None || r == st.cursor.stopRequest) && (AckTaken(st, e) ==> r == None)
  {
  }

  lemma RequestOnlyFromStop(st: Chat, step: Step)
    ensures var r := Next(st, step).cursor.stopRequest;
      r == None || r == st.cursor.stopRequest || Requests(step, r.value)
    ensures step.Ws? && AckTaken(st, step.event) ==> Next(st, step).cursor.stopRequest == None
  {
    if step.Ws? { EventsOnlyClearRequest(st, step.event, step.clock); }
  }

  // The stop pending under r was made by step j and has been pending ever since.
  ghost predicate PendingSince(conversation: string, steps: seq<Step>, r: string, j: nat) {
    && j < |steps| && Requests(steps[j], r)
    && forall i | j < i <= |steps| :: Run(conversation, steps[..i]).cursor.stopRequest == Some(r)
  }

  lemma {:induction false} PendingHasStop(conversation: string, steps: seq<Step>, r: string) returns (j: nat)
    requires Run(conversation, steps).cursor.stopRequest == Some(r)
    ensures PendingSince(conversation, steps, r, j)
  {
    var n := |steps| - 1;
    assert steps[..|steps|] == steps && steps != [];
    if Requests(steps[n], r) {
      j := n;
    } else {
      RequestOnlyFromStop(Run(conversation, steps[..n]), steps[n]);
      j := PendingHasStop(conversation, steps[..n], r);
      PendingLonger(conversation, steps, r, j);
    }
  }

  lemma PendingLonger(conversation: string, steps: seq<Step>, r: string, j: nat)
    requires steps != [] && PendingSince(conversation, steps[..|steps| - 1], r, j)
    requires Run(conversation, steps).cursor.stopRequest == Some(r)
    ensures PendingSince(conversation, steps, r, j)
  {
    var n := |steps| - 1;
    forall i | j < i <= |steps| ensures Run(conversation, steps[..i]).cursor.stopRequest == Some(r) {
      if i <= n {
        assert steps[..n][..i] == steps[..i];
      } else {
        assert steps[..i] == steps;
      }
    }
  }

  // The acknowledgement of a stop that came to nothing, under the pending request's id.
  predicate Answers(st: Chat, ack: Event)
    requires ack.CancelAck?
  {
    && ack.conversation == st.conversation && ack.noop && st.cursor.status == Stopping
    && st.cursor.stopRequest == Some(ack.requestId)
  }

  // An acknowledgement that answers the pending stop answers an earlier stop made under
  // its own request id and pending until now; it ends the run. Any other changes nothing.
  lemma AckAnswersItsStop(conversation: string, steps: seq<Step>, ack: Step)
    requires ack.Ws? && ack.event.CancelAck?
    ensures var before, after := Run(conversation, steps), Next(Run(conversation, steps), ack);
      if Answers(before, ack.event) then
        && (exists j :: PendingSince(conversation, steps, ack.event.requestId, j))
        && after.cursor.stopRequest == None && after.cursor.status == Idle && after.cursor.inflight == None
        && !after.cursor.streaming
      else after == before
  {
    var before := Run(conversation, steps);
    AckEndsItsOwnStop(before, ack);
    if Answers(before, ack.event) {
      var j := PendingHasStop(conversation, steps, ack.event.requestId);
    }
  }

  // The bubble a stop is about: the one its run is mapped to, or else the active one.
  function StopTarget(st: Chat): Option<Id> {
    if st.cursor.stopInflight.Some? && st.cursor.stopInflight.value in st.index.assistantOf
    then Some(st.index.assistantOf[st.cursor.stopInflight.value]) else st.cursor.active
  }

  // A bubble without text, reasoning, tool calls, warnings or a command.
  predicate ShowsNothing(m: Message) {
    && m.role == Assistant
    && (forall c | c in m.body.text :: IsSpace(c)) && (forall c | c in m.body.think :: IsSpace(c))
    && m.body.tools == [] && m.body.warnings == [] && m.command == None
  }

  lemma EmptyIsInvisible(m: Message)
    ensures ShowsNothing(m) <==> m.role.Assistant? && !HasVisibleContent(m)
  {
    if Blank(m.body.text) { assert forall c | c in m.body.text :: IsSpace(c); }
    if Blank(m.body.think) { assert forall c | c in m.body.think :: IsSpace(c); }
  }

  // What the acknowledgement takes from the screen: exactly the stop's bubble, if it
  // shows nothing yet.
  lemma AckRemovesEmptyBubble(st: Chat, ack: Event, clock: Clock, m: Message)
    requires ChatScreenInv(st) && ack.CancelAck? && Answers(st, ack)
    ensures m in HandleWsEvent(st, ack, clock).screen.messages <==>
      m in st.screen.messages && !(StopTarget(st) == Some(m.id) && ShowsNothing(m))
  {
    var target := StopTarget(st);
    if target.Some? {
      var ms, left := st.screen.messages, WithoutEmpty(st.screen.messages, target.value);
      RemovalIs(ms, target.value, m);
      forall x | x in left ensures !Doubled(left, x) { DoubledMeans(ms, x); DoubledMeans(left, x); }
      CollapseIdle(left);
      assert HandleWsEvent(st, ack, clock).screen.messages == Collapse(left);
    }
  }

  // The bubble's mapping goes in any case, and it is the active one no more; who owned
  // which bubble before, what is final and what is live stay.
  lemma AckDropsMapping(st: Chat, ack: Event, clock: Clock)
    requires ack.CancelAck? && Answers(st, ack)
    ensures var after := HandleWsEvent(st, ack, clock);
      && (StopTarget(st).Some? ==>
            && after.cursor.active == (if st.cursor.active == StopTarget(st) then None else st.cursor.active)
            && after.index.assistantOf
                 == (if st.cursor.stopInflight.Some? && st.cursor.stopInflight != Some("")
                     then st.index.assistantOf - {st.cursor.stopInflight.value} else st.index.assistantOf))
      && after.index.historical == st.index.historical && after.index.finalized == st.index.finalized
      && after.live == st.live
  {
  }

  lemma RemovalIs(ms: seq<Message>, id: Id, m: Message)
    requires Distinct(ms)
    ensures m in WithoutEmpty(ms, id) <==> m in ms && !(m.id == id && ShowsNothing(m))
    ensures forall x | x in WithoutEmpty(ms, id) :: x in ms
  {
    WithoutMembers(ms, id);
    EmptyIsInvisible(m);
    var k := FindId(ms, id);
    if m in ms && m.id == id {
      var j :| 0 <= j < |ms| && ms[j] == m;
      assert j == k;
    }
  }

  lemma TakenInit(conversation: string, steps: seq<Step>, r: string)
    requires steps != []
    ensures Taken(conversation, steps, r)[..|steps| - 1] == Taken(conversation, steps[..|steps| - 1], r)
  {
    var init := steps[..|steps| - 1];
    assert forall k | 0 <= k < |init| :: init[..k] == steps[..k];
  }

  // A request pays for at most one acknowledgement: those taken, and the pending
  // one, never outnumber the stops made under that id.
  lemma {:induction false} AcksNeedRequests(conversation: string, steps: seq<Step>, r: string)
    ensures Count(Taken(conversation, steps, r))
          + (if Run(conversation, steps).cursor.stopRequest == Some(r) then 1 else 0) <= RequestCount(steps, r)
  {
    if steps != [] {
      var init := steps[..|steps| - 1];
      AcksNeedRequests(conversation, init, r);
      TakenInit(conversation, steps, r);
      RequestOnlyFromStop(Run(conversation, init), steps[|steps| - 1]);
    }
  }

  lemma {:induction false} CountOne(flags: seq<bool>, k: nat)
    requires k < |flags| && flags[k]
    ensures Count(flags) >= 1
  {
    if k < |flags| - 1 { CountOne(flags[..|flags| - 1], k); }
  }

  lemma {:induction false} CountTwo(flags: seq<bool>, j: nat, k: nat)
    requires j < k < |flags| && flags[j] && flags[k]
    ensures Count(flags) >= 2
  {
    if k < |flags| - 1 { CountTwo(flags[..|flags| - 1], j, k); } else { CountOne(flags[..k], j); }
  }

  // With distinct request ids, each stop request is consumed at most once.
  lemma ConsumedOnce(conversation: string, steps: seq<Step>, r: string, j: nat, k: nat)
    requires forall a, b | 0 <= a < b < |steps| :: !(Requests(steps[a], r) && Requests(steps[b], r))
    requires j < k < |steps|
    requires Takes(Run(conversation, steps[..j]), steps[j], r)
    ensures !Takes(Run(conversation, steps[..k]), steps[k], r)
  {
    AcksNeedRequests(conversation, steps, r);
    RequestedOnce(steps, r);
    var taken := Taken(conversation, steps, r);
    assert taken[j];
    if taken[k] { CountTwo(taken, j, k); }
  }

  lemma {:induction false} RequestedOnce(steps: seq<Step>, r: string)
    requires forall a, b | 0 <= a < b < |steps| :: !(Requests(steps[a], r) && Requests(steps[b], r))
    ensures RequestCount(steps, r) <= 1
    ensures RequestCount(steps, r) == 1 ==> exists a :: 0 <= a < |steps| && Requests(steps[a], r)
  {
    if steps != [] {
      var init := steps[..|steps| - 1];
      RequestedOnce(init, r);
      if a :| 0 <= a < |init| && Requests(init[a], r) { assert Requests(steps[a], r); }
    }
  }

  // ---- stopped bubbles ----

  predicate IsStopped(m: Message) { m.streamStatus == Some(Stopped) }

  function StoppedIds(ms: seq<Message>): set<Id> { set m | m in ms && IsStopped(m) :: m.id }

  // The bubble a final writes: the one its inflight owns, or without an inflight the
  // active one, a last one still processing, or a new one.
  function FinalBubble(st: Chat, step: Step): Option<Id>
    requires step.Ws? && step.event.TurnFinal?
  {
    if step.event.inflight != "" then BubbleOf(Next(st, step).index, step.event.inflight)
    else Some(EnsuredId(st, None, false))
  }

  // A stopped history entry that becomes message "id": it carries the id and is
  // matched to nothing, or is matched to the message on screen with that id.
  ghost predicate StoppedEntry(st: Chat, e: Entry, id: Id) {
    && IsStopped(e.message)
    && ((e.message.id == id && !Matched(st, e))
        || (Merges(st) && exists m :: m in Candidates(st) && m.id == id && Matches(m, e.message)))
  }

  // The steps that may mark bubble "id" stopped: a stopped final that writes that
  // bubble, history with a stopped entry for it, or a caller adding it stopped.
  ghost predicate StopsBubble(st: Chat, step: Step, id: Id) {
    || (&& step.Ws? && step.event.TurnFinal? && step.event.status.StoppedFinal?
        && step.event.conversation == st.conversation && FinalBubble(st, step) == Some(id))
    || (step.History? && exists e :: e in step.history && StoppedEntry(st, e, id))
    || (step.AddLocal? && step.message.id == id && IsStopped(step.message))
  }

  lemma StoppedShown(s: Screen, ms: seq<Message>)
    ensures StoppedIds(Show(s, ms).messages) <= StoppedIds(ms)
  {
    CollapseClears(ms);
  }

  lemma StoppedAppended(ms: seq<Message>, m: Message)
    ensures StoppedIds(ms + [m]) <= StoppedIds(ms) + (if IsStopped(m) then {m.id} else {})
  {
  }

  lemma StoppedEdited(ms: seq<Message>, id: Id, p: Patch)
    ensures StoppedIds(Edit(ms, id, p)) <= StoppedIds(ms) + (if p.streamStatus == Some(Stopped) then {id} else {})
  {
    var r := Edit(ms, id, p);
    forall m | m in r && IsStopped(m)
      ensures m.id in StoppedIds(ms) || (p.streamStatus == Some(Stopped) && m.id == id)
    {
      var k :| 0 <= k < |r| && r[k] == m;
      assert ms[k] in ms;
    }
  }

  lemma SyncStopped(st: Chat, id: Id, p: Patch)
    ensures StoppedIds(Sync(st, id, p).screen.messages)
         <= StoppedIds(st.screen.messages) + (if p.streamStatus == Some(Stopped) then {id} else {})
  {
    StoppedEdited(st.screen.messages, id, p);
    StoppedShown(st.screen, Edit(st.screen.messages, id, p));
  }

  lemma EnsureStopped(st: Chat, key: Option<InflightId>, forceNew: bool, clock: Clock)
    ensures StoppedIds(Ensure(st, key, forceNew, clock).screen.messages) <= StoppedIds(st.screen.messages)
  {
    var m := NewBubble(EnsuredId(st, key, forceNew), clock.stamp);
    StoppedAppended(st.screen.messages, m);
    StoppedShown(st.screen, st.screen.messages + [m]);
  }

  lemma OnIncrementalStopped(st: Chat, e: Event, clock: Clock)
    requires Incremental(e)
    ensures StoppedIds(OnIncremental(st, e, clock).screen.messages) <= StoppedIds(st.screen.messages)
  {
    EnsureStopped(st, Key(e.inflight), false, clock);
    var r := Resolve(st, e.inflight, clock);
    SyncStopped(r, ResolvedId(st, e.inflight),
        NO_PATCH.(body := Some(Advance(r.live, e, Local(r.nextId))), streamStatus := Some(Processing)));
  }

  lemma AdoptSnapshotStopped(
    st: Chat, i: InflightId, text: string, think: string, tools: seq<ToolEvent>, startedAt: Stamp,
    command: Option<Meta>, clock: Clock)
    ensures StoppedIds(AdoptSnapshot(st, i, text, think, tools, startedAt, command, clock).screen.messages)
         <= StoppedIds(st.screen.messages)
  {
    EnsureStopped(st, Key(i), false, clock);
    var r := Ensure(st, Key(i), false, clock);
    var applied := ApplyTools(SnapshotBody(text, think), tools, r.nextId);
    SyncStopped(r, EnsuredId(st, Key(i), false), StartedPatch(applied.0, startedAt, command));
  }

  lemma ShowTurnStopped(st: Chat, bound: Option<Id>, content: string, createdAt: Stamp, now: int)
    ensures StoppedIds(ShowTurn(st, bound, content, createdAt, now).screen.messages) <= StoppedIds(st.screen.messages)
  {
    var ms := st.screen.messages;
    match PlanTurn(ms, bound, content, createdAt, now) {
      case Keep => StoppedShown(st.screen, ms);
      case ConfirmAt(k, untrack) =>
        var next := ms[k := ConfirmedMessage(ms[k], content, createdAt)];
        forall m | m in next && IsStopped(m) ensures m.id in StoppedIds(ms) { assert ms[k] in ms; }
        StoppedShown(if untrack then UntrackAll(st.screen, {ms[k].id}) else st.screen, next);
      case Append =>
        var next := InsertTurn(ms, UserMessage(Local(st.nextId), content, createdAt, false), st.cursor.active);
        forall m | m in next && IsStopped(m) ensures m.id in StoppedIds(ms) { assert m in ms; }
        StoppedShown(st.screen, next);
    }
  }

  lemma OnUserTurnStopped(st: Chat, e: Event, clock: Clock)
    requires e.UserTurn?
    ensures StoppedIds(OnUserTurn(st, e, clock).screen.messages) <= StoppedIds(st.screen.messages)
  {
    if !TurnIgnored(st, e.inflight) {
      var a := AdoptTurn(st, e.inflight);
      EnsureStopped(a, Key(e.inflight), false, clock);
      var r := Ensure(a, Key(e.inflight), false, clock);
      ShowTurnStopped(r, if e.inflight == "" then None else Lookup(r.screen.trackedBy, e.inflight), e.content,
          e.createdAt, clock.now);
    }
  }

  // Only a stopped final adds a bubble to the stopped ones: its own inflight's.
  lemma OnFinalStopped(st: Chat, e: Event, clock: Clock)
    requires e.TurnFinal? && ChatIndexInv(st)
    ensures var after := OnFinal(st, e, clock);
      forall id | id in StoppedIds(after.screen.messages) && id !in StoppedIds(st.screen.messages) ::
        && e.status.StoppedFinal?
        && Some(id) == if e.inflight != "" then BubbleOf(after.index, e.inflight) else Some(EnsuredId(st, None, false))
  {
    var i := e.inflight;
    var x := st.(index := Finalize(st.index, i));
    if i in st.index.finalized {
    } else if OutOfBand(st, i) {
      if ExistingBubble(st, i).Some? { SyncStopped(x, ExistingBubble(st, i).value, FinalPatch(e)); }
    } else {
      FinishWithStopped(x, e, Lookup(st.index.assistantOf, i), clock);
    }
  }

  lemma FinishWithStopped(x: Chat, e: Event, bubble: Option<Id>, clock: Clock)
    requires e.TurnFinal?
    ensures var id := if bubble.Some? then bubble.value else EnsuredId(x, Key(e.inflight), false);
      StoppedIds(FinishWith(x, e, bubble, clock).screen.messages)
        <= StoppedIds(x.screen.messages) + (if e.status.StoppedFinal? then {id} else {})
  {
    EnsureStopped(x, Key(e.inflight), false, clock);
    var r := if bubble.Some? then x else Ensure(x, Key(e.inflight), false, clock);
    var id := if bubble.Some? then bubble.value else EnsuredId(x, Key(e.inflight), false);
    SyncStopped(r, id, FinalPatch(e).(body := Some(FinalBody(e, r.live))));
  }

  lemma RemovePendingStopped(st: Chat, target: Option<InflightId>)
    ensures StoppedIds(RemovePending(st, target).screen.messages) <= StoppedIds(st.screen.messages)
  {
    var id := PendingTarget(st, target);
    if id.Some? {
      var ms := st.screen.messages;
      WithoutMembers(ms, id.value);
      StoppedShown(st.screen, ms);
      StoppedShown(st.screen, Without(ms, id.value));
    }
  }

  lemma HandleWsEventStopped(st: Chat, e: Event, clock: Clock, id: Id)
    requires ChatIndexInv(st)
    requires id in StoppedIds(HandleWsEvent(st, e, clock).screen.messages) && id !in StoppedIds(st.screen.messages)
    ensures StopsBubble(st, Ws(e, clock), id)
  {
    var h := Heard(st, e);
    if e.CancelAck? {
      RemovePendingStopped(st, st.cursor.stopInflight);
    } else if e.UserTurn? {
      OnUserTurnStopped(h, e, clock);
    } else if e.InflightSnapshot? {
      AdoptSnapshotStopped(h, e.inflight, e.text, e.think, e.toolEvents, e.startedAt, e.command, clock);
    } else if e.TurnFinal? {
      OnFinalStopped(h, e, clock);
    } else {
      OnIncrementalStopped(h, e, clock);
    }
  }

  // ---- local steps ----

  lemma UnoptimisticStopped(ms: seq<Message>, id: Id)
    ensures StoppedIds(Unoptimistic(ms, id)) <= StoppedIds(ms)
  {
    var r := Unoptimistic(ms, id);
    forall m | m in r && IsStopped(m) ensures m.id in StoppedIds(ms) {
      var k :| 0 <= k < |r| && r[k] == m;
      assert ms[k] in ms;
    }
  }

  lemma AppendStopped(s: Screen, m: Message)
    ensures StoppedIds(Show(s, s.messages + [m]).messages)
         <= StoppedIds(s.messages) + (if IsStopped(m) then {m.id} else {})
  {
    StoppedAppended(s.messages, m);
    StoppedShown(s, s.messages + [m]);
  }

  lemma SendBeginStopped(st: Chat, text: string, ready: bool, i: InflightId, clock: Clock)
    ensures StoppedIds(SendBegin(st, text, ready, i, clock).screen.messages) <= StoppedIds(st.screen.messages)
  {
    if !Blank(text) && !st.cursor.status.Sending? && ready {
      StoppedShown(st.screen, st.screen.messages);
      AppendStopped(Touch(st).screen, UserMessage(Local(st.nextId), text, clock.stamp, false));
      var u := SendPrepared(st, text, i, clock);
      EnsureStopped(u, Key(i), true, clock);
      var r := Ensure(u, Key(i), true, clock);
      SyncStopped(r, EnsuredId(u, Key(i), true), NO_PATCH.(body := Some(r.live), streamStatus := Some(Processing)));
    }
  }

  lemma SendFailedStopped(st: Chat, error: string, refused: bool)
    ensures StoppedIds(SendFailed(st, error, refused).screen.messages) <= StoppedIds(st.screen.messages)
  {
    AppendStopped(st.screen, ErrorBubble(Local(st.nextId), error));
    var t := ErrorShown(st, error, refused);
    if t.cursor.active.Some? {
      SyncStopped(t, t.cursor.active.value, NO_PATCH.(body := Some(t.live), streamStatus := Some(Failed)));
    }
  }

  // ---- history ----

  lemma ReplacementStopped(candidates: seq<Message>, history: seq<Entry>, id: Id)
    requires id in MergeHistory(candidates, history).replacements
    requires IsStopped(MergeHistory(candidates, history).replacements[id]) && id !in StoppedIds(candidates)
    ensures exists e, m ::
      e in history && IsStopped(e.message) && m in candidates && m.id == id && Matches(m, e.message)
  {
    ReplacedOnlyByMatch(candidates, history, id);
    var k: nat :| LastMatch(candidates, history, k, id);
    ReplacedByLastMatch(candidates, history, k, id);
    var m := FirstMatch(candidates, history[k].message).value;
    assert history[k] in history && IsStopped(history[k].message);
  }

  lemma KeptStopped(st: Chat, history: seq<Entry>, id: Id)
    requires id in StoppedIds(MergeFor(st, history).kept)
    ensures exists e :: e in history && StoppedEntry(st, e, id)
  {
    var kept := MergeFor(st, history).kept;
    var m :| m in kept && IsStopped(m) && m.id == id;
    if Merges(st) {
      KeptUnmatched(Candidates(st), history, m);
      var e :| e in history && e.message == m && FirstMatch(Candidates(st), m).None?;
      MatchedIffFound(st, e);
      assert StoppedEntry(st, e, id);
    } else {
      var k :| 0 <= k < |history| && history[k].message == m;
      assert StoppedEntry(st, history[k], id);
    }
  }

  lemma NewlyStoppedIsReplaced(ms: seq<Message>, replacements: map<Id, Message>, id: Id)
    requires forall i | i in replacements :: replacements[i].id == i
    requires id in StoppedIds(Replace(ms, replacements)) && id !in StoppedIds(ms)
    ensures id in replacements && IsStopped(replacements[id])
  {
    var replaced := Replace(ms, replacements);
    var m :| m in replaced && IsStopped(m) && m.id == id;
    var k :| 0 <= k < |replaced| && replaced[k] == m;
    assert ms[k] in ms;
  }

  lemma ReplaceStopped(st: Chat, history: seq<Entry>, id: Id)
    requires Distinct(st.screen.messages)
    requires id in StoppedIds(Replace(st.screen.messages, MergeFor(st, history).replacements))
    requires id !in StoppedIds(st.screen.messages)
    ensures exists e :: e in history && StoppedEntry(st, e, id)
  {
    MergeHistoryOk(Candidates(st), history);
    NewlyStoppedIsReplaced(st.screen.messages, MergeFor(st, history).replacements, id);
    assert id !in StoppedIds(Candidates(st)) by {
      assert forall m | m in Candidates(st) :: m in st.screen.messages;
    }
    ReplacementStopped(Candidates(st), history, id);
    var e, c :| e in history && IsStopped(e.message) && c in Candidates(st) && c.id == id && Matches(c, e.message);
    assert StoppedEntry(st, e, id);
  }

  lemma DedupeStopped(ms: seq<Message>)
    ensures StoppedIds(Dedupe(ms)) <= StoppedIds(ms)
  {
    DedupeDistinct(ms);
  }

  // A message newly stopped by hydration is stopped by an entry of its own.
  lemma HistoryStopped(st: Chat, conversation: string, history: seq<Entry>, mode: Mode, id: Id)
    requires Distinct(st.screen.messages) && id !in StoppedIds(st.screen.messages)
    requires id in StoppedIds(HydrateHistory(st, conversation, history, mode).screen.messages)
    ensures exists e :: e in history && StoppedEntry(st, e, id)
  {
    var g := MergeFor(st, history);
    var replaced := Replace(st.screen.messages, g.replacements);
    StoppedShown(UntrackAll(st.screen, g.untracked), MergedMessages(st, history, mode));
    DedupeStopped(g.kept + replaced);
    DedupeStopped(g.kept);
    assert StoppedIds(g.kept + replaced) == StoppedIds(g.kept) + StoppedIds(replaced);
    if id in StoppedIds(g.kept) { KeptStopped(st, history, id); } else { ReplaceStopped(st, history, id); }
  }

  // ---- every step ----

  lemma StepStopped(st: Chat, step: Step, id: Id)
    requires ChatScreenInv(st) && ChatIndexInv(st)
    requires id in StoppedIds(Next(st, step).screen.messages) && id !in StoppedIds(st.screen.messages)
    ensures StopsBubble(st, step, id)
  {
    match step {
      case Ws(e, clock) => HandleWsEventStopped(st, e, clock, id);
      case Begin(text, ready, i, clock) => SendBeginStopped(st, text, ready, i, clock);
      case Rejected(error, refused) => SendFailedStopped(st, error, refused);
      case History(conversation, history, mode) =>
        HistoryStopped(st, conversation, history, mode, id);
      case Restore(conversation, s, clock) =>
        AdoptSnapshotStopped(Rebase(st, conversation, s.seqNo), s.inflight, s.text, s.think, s.toolEvents,
            s.startedAt, s.command, clock);
      case _ => LocalStepStopped(st, step, id);
    }
  }

  lemma LocalStepStopped(st: Chat, step: Step, id: Id)
    requires !step.Ws? && !step.Begin? && !step.Rejected? && !step.History? && !step.Restore?
    requires id in StoppedIds(Next(st, step).screen.messages) && id !in StoppedIds(st.screen.messages)
    ensures StopsBubble(st, step, id)
  {
    StoppedShown(st.screen, st.screen.messages);
    StoppedShown(st.screen, []);
    match step {
      case AddLocal(m) =>
        AppendStopped(st.screen, m);
      case AddOptimistic(content, clock) =>
        var m := UserMessage(Local(st.nextId), content, clock.stamp, true);
        AppendStopped(st.screen.(tracked := st.screen.tracked + {m.id}), m);
      case Settle(target) =>
        UnoptimisticStopped(st.screen.messages, target);
        StoppedShown(UntrackAll(st.screen, {target}), Unoptimistic(st.screen.messages, target));
      case Switch(_, _) => StoppedShown(Touch(st).screen, []);
      case _ =>
    }
  }

  // Whatever bubble is stopped in a reachable state, some step marked it so, and that
  // step was one of those for this bubble; no acknowledgement ever is.
  lemma {:induction false} RunStopped(conversation: string, steps: seq<Step>, id: Id)
    requires RunOk(conversation, steps)
    requires id in StoppedIds(Run(conversation, steps).screen.messages)
    ensures exists k :: 0 <= k < |steps| && Marks(conversation, steps, k, id)
  {
    if steps != [] {
      var n := |steps| - 1;
      RunOkPrefix(conversation, steps, n);
      if id in StoppedIds(Run(conversation, steps[..n]).screen.messages) {
        RunStopped(conversation, steps[..n], id);
        var k :| 0 <= k < n && Marks(conversation, steps[..n], k, id);
        MarksLater(conversation, steps, n, k, id);
      } else {
        RunKeepsScreen(conversation, steps[..n]);
        RunKeepsIndex(conversation, steps[..n]);
        StepStopped(Run(conversation, steps[..n]), steps[n], id);
        assert steps[..n + 1] == steps;
        assert Marks(conversation, steps, n, id);
      }
    }
  }

  // Step k turned "id" stopped, and is a step that may.
  ghost predicate Marks(conversation: string, steps: seq<Step>, k: nat, id: Id)
    requires k < |steps|
  {
    var before := Run(conversation, steps[..k]);
    && id !in StoppedIds(before.screen.messages)
    && id in StoppedIds(Run(conversation, steps[..k + 1]).screen.messages)
    && StopsBubble(before, steps[k], id)
  }

  lemma MarksLater(conversation: string, steps: seq<Step>, n: nat, k: nat, id: Id)
    requires k < n <= |steps| && Marks(conversation, steps[..n], k, id)
    ensures Marks(conversation, steps, k, id)
  {
    assert steps[..n][..k] == steps[..k] && steps[..n][..k + 1] == steps[..k + 1];
  }
}
