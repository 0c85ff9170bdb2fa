// What the operations the page calls leave on screen and in the refs: stopping,
// resetting, adding and settling messages, sending, and restoring a snapshot.
module ChatLocal {
  import opened Prelude
  import opened ChatTypes
  import opened ChatModel
  import opened ChatScreen
  import opened ChatIndex
  import opened ChatFinals
  import opened ChatOutcomes
  import opened ChatTurns

  // ---- stopping and resetting ----

  // A stop only enters the stopping state, for the current run and, if it has one, under
  // its request id.
  lemma StopOnlyMarks(st: Chat, requestId: Option<string>)
    requires ChatScreenInv(st)
    ensures var after := Next(st, Stop(requestId));
      && after.cursor.status == Stopping && after.cursor.stopInflight == st.cursor.inflight
      && after.cursor.stopRequest
           == (if requestId.None? || requestId.value == "" then st.cursor.stopRequest else requestId)
      && after == st.(cursor := st.cursor.(status := after.cursor.status, stopInflight := after.cursor.stopInflight,
                                           stopRequest := after.cursor.stopRequest))
  {
    ShowIdle(st.screen, st.nextId);
  }

  // A reset leaves the initial state under the new conversation id, and so does a switch,
  // but for the messages it keeps; ids are never made again.
  lemma ResetStartsOver(st: Chat, conversation: string, clear: bool)
    requires ChatScreenInv(st)
    ensures Next(st, Reset(conversation)) == Start(conversation).(nextId := st.nextId)
    ensures Next(st, Switch(conversation, clear)) == Start(conversation).(nextId := st.nextId,
        screen := Screen(if clear then [] else st.screen.messages, {}, map[]))
  {
    ShowIdle(st.screen, st.nextId);
    assert Collapse([]) == [];
  }

  // Rendering a new conversation id forgets who owns which bubble, what is tracked and a
  // pending stop, and nothing else.
  lemma RenderForgets(st: Chat)
    ensures var after := Next(st, Effect);
      && after.index == Index(map[], map[], {}, {}) && after.screen == Screen(st.screen.messages, {}, map[])
      && after.cursor == st.cursor.(stopRequest := None, stopInflight := None)
      && after.live == st.live && after.conversation == st.conversation && after.nextId == st.nextId
  {
  }

  // ---- adding messages ----

  // A caller's message is added as it is; nothing is tracked for it.
  lemma LocalIsAdded(st: Chat, m: Message)
    requires ChatScreenInv(st) && StepFresh(st, AddLocal(m))
    ensures var after := Next(st, AddLocal(m));
      && Added(st.screen.messages, after.screen.messages, m) && after.screen.tracked <= st.screen.tracked
      && after == st.(screen := after.screen)
  {
    AppendAdds(st.screen, m, st.nextId);
  }

  // An optimistic message gets a new id, and is tracked exactly if it is shown.
  lemma OptimisticIsAdded(st: Chat, content: string, clock: Clock)
    requires ChatScreenInv(st)
    ensures var after := Next(st, AddOptimistic(content, clock));
      var m := Message(Local(st.nextId), User, Body(content, "", [], [], [], []), true, None, clock.stamp,
                       None, None, None, None);
      && Added(st.screen.messages, after.screen.messages, m)
      && (m.id in after.screen.tracked <==> m in after.screen.messages)
      && after.nextId == st.nextId + 1 && after == st.(screen := after.screen, nextId := st.nextId + 1)
  {
    var m := UserMessage(Local(st.nextId), content, clock.stamp, true);
    assert m.id !in Ids(st.screen.messages);
    AppendAdds(st.screen, m, st.nextId);
    NewIsTracked(st.screen, m);
  }

  lemma NewIsTracked(s: Screen, m: Message)
    requires m.id !in Ids(s.messages)
    ensures var t := Show(s.(tracked := s.tracked + {m.id}), s.messages + [m]);
      m.id in t.tracked <==> m in t.messages
  {
    var shown := Collapse(s.messages + [m]);
    forall x | x in shown && x.id == m.id ensures x == m {
      CollapseMeans(s.messages + [m], x);
      assert x in s.messages ==> x.id in Ids(s.messages);
    }
  }

  // A tracked message is bound to a run that is named; anything else binds nothing.
  lemma BindBinds(st: Chat, id: Id, i: InflightId)
    ensures var after := Next(st, Bind(id, i));
      if i != "" && id in st.screen.tracked then
        && after.screen.trackedBy == st.screen.trackedBy[i := id] && after == st.(screen := after.screen)
        && after.screen.messages == st.screen.messages && after.screen.tracked == st.screen.tracked
      else after == st
  {
  }

  // A settled message is confirmed and no longer tracked or bound; optimistic messages
  // with its text go.
  lemma SettleConfirms(st: Chat, m: Message)
    requires ChatScreenInv(st) && m in st.screen.messages && m.role == User
    ensures var after, settled := Next(st, Settle(m.id)), m.(optimistic := false);
      && settled in after.screen.messages && OnlyUntracked(st.screen, after.screen, m.id)
      && (forall x: Message | x.id != m.id ::
            x in after.screen.messages <==> x in st.screen.messages && !Doubled([settled], x))
      && after == st.(screen := after.screen)
  {
    var ms, settled := st.screen.messages, m.(optimistic := false);
    var k: nat :| k < |ms| && ms[k] == m;
    UnoptimisticOne(ms, k);
    ReplacedOne(st.screen, k, settled, st.nextId);
    UntrackTracks(st.screen, m.id, Unoptimistic(ms, m.id));
  }

  lemma UnoptimisticOne(ms: seq<Message>, k: nat)
    requires Distinct(ms) && k < |ms| && ms[k].role == User
    ensures Unoptimistic(ms, ms[k].id) == ms[k := ms[k].(optimistic := false)]
  {
  }

  // ---- from the optimistic message to its confirmation ----

  // A message added optimistically and bound to a run is the one its turn confirms,
  // whatever else the user said before, as long as none of it is the same text confirmed.
  lemma OptimisticIsConfirmed(st: Chat, content: string, added: Clock, e: Event, clock: Clock)
    requires Sound(st) && e.UserTurn? && e.conversation == st.conversation && e.content != "" && e.inflight != ""
    requires !TurnIgnored(st, e.inflight)
    requires forall m | m in st.screen.messages && m.role == User && !m.optimistic :: m.body.text != content
    ensures var id := Local(st.nextId);
      var bound := Next(Next(st, AddOptimistic(content, added)), Bind(id, e.inflight));
      var after := Next(bound, Ws(e, clock));
      && (exists c :: c in after.screen.messages && c.id == id && c.role == User && !c.optimistic
                   && c.body.text == e.content && c.createdAt == e.createdAt)
      && id !in after.screen.tracked
      && forall x: Message | x.id != id && x.role == User && x in after.screen.messages :: x in st.screen.messages
  {
    var id := Local(st.nextId);
    var shown := Next(st, AddOptimistic(content, added));
    var bound := Next(shown, Bind(id, e.inflight));
    var m := UserMessage(id, content, added.stamp, true);
    OptimisticIsAdded(st, content, added);
    AppendOptimisticKeeps(st, content, added);
    LocalStepIndex(st, AddOptimistic(content, added));
    LocalStepIndex(shown, Bind(id, e.inflight));
    BindBinds(shown, id, e.inflight);
    assert m in shown.screen.messages && id in shown.screen.tracked;
    BoundTurnConfirms(bound, e, clock, m);
    assert Confirmation(m, e.content, e.createdAt) in Next(bound, Ws(e, clock)).screen.messages;
  }

  // ---- sending ----

  predicate MaySend(st: Chat, text: string, ready: bool) { !Blank(text) && st.cursor.status != Sending && ready }

  // A send that is not due does nothing.
  lemma SendGuarded(st: Chat, text: string, ready: bool, i: InflightId, clock: Clock)
    ensures !MaySend(st, text, ready) ==> Next(st, Begin(text, ready, i, clock)) == st
  {
  }

  // The bubble of the reply, made last, is there as it was made.
  lemma BubbleSynced(u: Chat, i: InflightId, clock: Clock)
    requires ChatScreenInv(u) && i != ""
    ensures var r := Ensure(u, Key(i), true, clock);
      var bubble := NewBubble(Local(u.nextId), clock.stamp);
      var after := Sync(r, Local(u.nextId), NO_PATCH.(body := Some(r.live), streamStatus := Some(Processing)));
      && EnsuredId(u, Key(i), true) == Local(u.nextId) && r.live == EMPTY_LIVE
      && after == r && r.screen == u.screen.(messages := u.screen.messages + [bubble])
      && r.cursor == u.cursor.(active := Some(Local(u.nextId))) && r.nextId == u.nextId + 1
      && r.index == u.index.(assistantOf := u.index.assistantOf[i := Local(u.nextId)],
                             historical := u.index.historical[i := Local(u.nextId)])
  {
    var r := Ensure(u, Key(i), true, clock);
    var bubble := NewBubble(Local(u.nextId), clock.stamp);
    BubbleAppends(u.screen, bubble, u.nextId);
    var p := NO_PATCH.(body := Some(r.live), streamStatus := Some(Processing));
    EnsureKeeps(u, Key(i), true, clock);
    assert Patched(bubble, p) == bubble;
    EditIdle(r.screen, bubble, p);
    ShowIdle(r.screen, r.nextId);
  }

  lemma EditIdle(s: Screen, m: Message, p: Patch)
    requires Distinct(s.messages) && m in s.messages && Patched(m, p) == m
    ensures Edit(s.messages, m.id, p) == s.messages
  {
    forall k | 0 <= k < |s.messages| && s.messages[k].id == m.id ensures s.messages[k] == m {
      SameIdSame(s.messages, s.messages[k], m);
    }
  }

  lemma BeginIs(st: Chat, text: string, ready: bool, i: InflightId, clock: Clock)
    requires MaySend(st, text, ready)
    ensures var u := SendPrepared(st, text, i, clock);
      var r := Ensure(u, Key(i), true, clock);
      SendBegin(st, text, ready, i, clock)
        == Sync(r, EnsuredId(u, Key(i), true), NO_PATCH.(body := Some(r.live), streamStatus := Some(Processing)))
  {
  }

  // What a send that is due works on, and leaves.
  lemma SendIs(st: Chat, text: string, ready: bool, i: InflightId, clock: Clock) returns (u: Chat)
    requires ChatScreenInv(st) && i != "" && MaySend(st, text, ready)
    ensures ChatScreenInv(u) && u == SendPrepared(st, text, i, clock)
    ensures u.screen == Show(st.screen, st.screen.messages + [UserMessage(Local(st.nextId), text, clock.stamp, false)])
    ensures u.nextId == st.nextId + 1 && u.index == See(st.index, i) && u.conversation == st.conversation
    ensures u.cursor == Cursor(Some(i), 0, None, Sending, true, None, None)
    ensures SendBegin(st, text, ready, i, clock) == Ensure(u, Key(i), true, clock)
    ensures SendBegin(st, text, ready, i, clock).screen.messages
         == u.screen.messages + [NewBubble(Local(st.nextId + 1), clock.stamp)]
  {
    u := SendPrepared(st, text, i, clock);
    PreparedIs(st, text, i, clock);
    BeginIs(st, text, ready, i, clock);
    BubbleSynced(u, i, clock);
  }

  lemma PreparedIs(st: Chat, text: string, i: InflightId, clock: Clock)
    requires ChatScreenInv(st)
    ensures var u := SendPrepared(st, text, i, clock);
      && ChatScreenInv(u) && u.nextId == st.nextId + 1 && u.index == See(st.index, i)
      && u.screen == Show(st.screen, st.screen.messages + [UserMessage(Local(st.nextId), text, clock.stamp, false)])
      && u.conversation == st.conversation && u.cursor == Cursor(Some(i), 0, None, Sending, true, None, None)
  {
    ShowIdle(st.screen, st.nextId);
    assert Touch(st) == st;
    AppendNewKeeps(st.screen, UserMessage(Local(st.nextId), text, clock.stamp, false), st.nextId);
  }

  // A send that is due makes its run current and gives it a bubble of its own, the active
  // one; it forgets what was live and which stop was pending.
  lemma SendTakesUp(st: Chat, text: string, ready: bool, i: InflightId, clock: Clock)
    requires ChatScreenInv(st) && i != "" && MaySend(st, text, ready)
    ensures var after, b := SendBegin(st, text, ready, i, clock), Local(st.nextId + 1);
      && after.cursor == Cursor(Some(i), 0, Some(b), Sending, true, None, None)
      && after.live == EMPTY_LIVE && after.conversation == st.conversation && after.nextId == st.nextId + 2
      && after.index == Index(st.index.assistantOf[i := b], st.index.historical[i := b], st.index.seen + {i},
                              st.index.finalized)
  {
    var u := SendIs(st, text, ready, i, clock);
    BubbleSynced(u, i, clock);
  }

  // It shows the user's message, confirmed, and after it the empty bubble of the reply.
  lemma SendShows(st: Chat, text: string, ready: bool, i: InflightId, clock: Clock)
    requires ChatScreenInv(st) && i != "" && MaySend(st, text, ready)
    ensures SentList(st.screen.messages, SendBegin(st, text, ready, i, clock).screen.messages,
        Message(Local(st.nextId), User, Body(text, "", [], [], [], []), false, None, clock.stamp,
                None, None, None, None), Local(st.nextId + 1), clock.stamp)
  {
    var turn := UserMessage(Local(st.nextId), text, clock.stamp, false);
    assert turn.id !in Ids(st.screen.messages);
    AppendAdds(st.screen, turn, st.nextId);
    var u := SendIs(st, text, ready, i, clock);
    SentListIs(st.screen.messages, turn, NewBubble(Local(st.nextId + 1), clock.stamp), clock.stamp);
  }

  lemma SentListIs(ms: seq<Message>, turn: Message, bubble: Message, stamp: Stamp)
    requires turn.role == User && !turn.optimistic && bubble == NewBubble(bubble.id, stamp)
    requires Added(ms, Collapse(ms + [turn]), turn)
    ensures SentList(ms, Collapse(ms + [turn]) + [bubble], turn, bubble.id, stamp)
  {
    var shown := Collapse(ms + [turn]);
    assert (shown + [bubble])[..|shown|] == shown;
  }

  // The list a send leaves.
  ghost predicate SentList(before: seq<Message>, after: seq<Message>, turn: Message, b: Id, stamp: Stamp) {
    && |after| >= 2 && after[|after| - 2] == turn && NewlyMade(after[|after| - 1], b, stamp, EMPTY_LIVE)
    && Added(before, after[..|after| - 1], turn)
  }

  // The server's answer to an accepted request: its run becomes the current one, and its
  // conversation the current one, forgetting the live mappings of another.
  lemma AnswerAdopts(st: Chat, i: InflightId, conversation: string)
    ensures var after := Next(st, Accepted(i, conversation));
      && after.cursor == st.cursor.(inflight := if i == "" then st.cursor.inflight else Some(i))
      && after.screen == st.screen && after.live == st.live && after.nextId == st.nextId
      && (if conversation == "" || conversation == st.conversation then
            after.conversation == st.conversation && after.index == st.index
          else
            && after.conversation == conversation
            && after.index == Index(map[], st.index.historical, {}, st.index.finalized))
  {
  }

  // A request refused or failed leaves the hook idle; a refusal also forgets the run.
  lemma FailureIdles(st: Chat, error: string, refused: bool)
    ensures var after := Next(st, Rejected(error, refused));
      && after.cursor == st.cursor.(streaming := false, status := Idle,
                                    inflight := if refused then None else st.cursor.inflight)
      && after.live == st.live && after.index == st.index && after.conversation == st.conversation
      && after.nextId == st.nextId + 1
  {
  }

  // The active bubble's id has been made.
  predicate ActiveKnown(st: Chat) { st.cursor.active.Some? ==> Known(st.cursor.active.value, st.nextId) }

  lemma EnsureActive(st: Chat, key: Option<InflightId>, forceNew: bool, clock: Clock)
    requires Sound(st) && ActiveKnown(st)
    ensures ActiveKnown(Ensure(st, key, forceNew, clock)) && Ensure(st, key, forceNew, clock).nextId >= st.nextId
  {
  }

  lemma AdoptionActive(
    st: Chat, i: InflightId, text: string, think: string, tools: seq<ToolEvent>, startedAt: Stamp,
    command: Option<Meta>, clock: Clock)
    requires Sound(st) && ActiveKnown(st)
    ensures ActiveKnown(AdoptSnapshot(st, i, text, think, tools, startedAt, command, clock))
  {
    EnsureActive(st, Key(i), false, clock);
    ApplyToolsCounts(SnapshotBody(text, think), tools, Ensure(st, Key(i), false, clock).nextId);
  }

  lemma FinalActive(st: Chat, e: Event, clock: Clock)
    requires Sound(st) && ActiveKnown(st) && e.TurnFinal?
    ensures ActiveKnown(OnFinal(st, e, clock))
  {
    var x := st.(index := Finalize(st.index, e.inflight));
    FewerMappings(st.index, x.index, x.nextId);
    EnsureActive(x, Key(e.inflight), false, clock);
  }

  lemma TurnActive(st: Chat, e: Event, clock: Clock)
    requires Sound(st) && ActiveKnown(st) && e.UserTurn?
    ensures ActiveKnown(OnUserTurn(st, e, clock))
  {
    var a := AdoptTurn(st, e.inflight);
    FewerMappings(st.index, a.index, a.nextId);
    EnsureActive(a, Key(e.inflight), false, clock);
  }

  lemma EventActive(st: Chat, e: Event, clock: Clock)
    requires Sound(st) && ActiveKnown(st)
    ensures ActiveKnown(HandleWsEvent(st, e, clock))
  {
    var h := Heard(st, e);
    if e.conversation != st.conversation || e.CancelAck? {
    } else if e.UserTurn? {
      TurnActive(h, e, clock);
    } else if e.InflightSnapshot? {
      AdoptionActive(h, e.inflight, e.text, e.think, e.toolEvents, e.startedAt, e.command, clock);
    } else if e.TurnFinal? {
      FinalActive(h, e, clock);
    } else {
      EnsureActive(h, Key(e.inflight), false, clock);
    }
  }

  lemma SendActive(st: Chat, text: string, ready: bool, i: InflightId, clock: Clock)
    requires Sound(st) && ActiveKnown(st)
    ensures ActiveKnown(Next(st, Begin(text, ready, i, clock)))
  {
  }

  lemma RestoreActive(st: Chat, conversation: string, s: Snapshot, clock: Clock)
    requires Sound(st) && ActiveKnown(st)
    ensures ActiveKnown(HydrateSnapshot(st, conversation, s, clock))
  {
    var x := Rebase(st, conversation, s.seqNo);
    AdoptionActive(x, s.inflight, s.text, s.think, s.toolEvents, s.startedAt, s.command, clock);
  }

  lemma HistoryActive(st: Chat, step: Step)
    requires ActiveKnown(st) && step.History?
    ensures ActiveKnown(Next(st, step))
  {
  }

  lemma StepActive(st: Chat, step: Step)
    requires Sound(st) && ActiveKnown(st)
    ensures ActiveKnown(Next(st, step))
  {
    match step {
      case Ws(e, clock) => EventActive(st, e, clock);
      case Begin(text, ready, i, clock) => SendActive(st, text, ready, i, clock);
      case Restore(conversation, s, clock) => RestoreActive(st, conversation, s, clock);
      case History(_, _, _) => HistoryActive(st, step);
      case _ =>
    }
  }

  lemma {:induction false} RunActive(conversation: string, steps: seq<Step>)
    requires RunOk(conversation, steps)
    ensures ActiveKnown(Run(conversation, steps))
  {
    if steps != [] {
      var n := |steps| - 1;
      RunOkPrefix(conversation, steps, n);
      RunKeepsScreen(conversation, steps[..n]);
      RunKeepsIndex(conversation, steps[..n]);
      RunActive(conversation, steps[..n]);
      StepActive(Run(conversation, steps[..n]), steps[n]);
    }
  }

  // An error bubble is added, and the active bubble fails with what is live.
  lemma FailureShows(st: Chat, error: string, refused: bool)
    requires ChatScreenInv(st) && ActiveKnown(st)
    ensures var after := Next(st, Rejected(error, refused)).screen.messages;
      && Message(Local(st.nextId), Assistant, Body(error, "", [], [], [], []), false, None, Stamp("", None), None,
                 Some(ErrorKind), None, None) in after
      && forall was | was in st.screen.messages && was.role.Assistant? && st.cursor.active == Some(was.id) ::
           was.(body := st.live, streamStatus := Some(Failed)) in after
  {
    var m := ErrorBubble(Local(st.nextId), error);
    var t := ErrorShown(st, error, refused);
    BubbleAppends(st.screen, m, st.nextId);
    assert t.screen.messages == st.screen.messages + [m];
    if t.cursor.active.Some? {
      var b, p := t.cursor.active.value, NO_PATCH.(body := Some(t.live), streamStatus := Some(Failed));
      OtherStays(t, b, m, p);
      forall was | was in st.screen.messages && was.role.Assistant? && was.id == b
        ensures was.(body := st.live, streamStatus := Some(Failed)) in Sync(t, b, p).screen.messages
      {
        SyncShows(t, was, p);
      }
    }
  }

  lemma OtherStays(t: Chat, b: Id, m: Message, p: Patch)
    requires m in t.screen.messages && m.role.Assistant? && m.id != b
    ensures m in Sync(t, b, p).screen.messages
  {
    var k :| 0 <= k < |t.screen.messages| && t.screen.messages[k] == m;
    var edited := Edit(t.screen.messages, b, p);
    assert edited[k] == m;
    CollapseClears(edited);
  }

  // ---- restoring a snapshot ----

  // A snapshot fetched for this conversation is ignored if its run was seen and another
  // is current, or if its run is current and it is not newer than what was heard.
  predicate NotRestored(st: Chat, conversation: string, s: Snapshot) {
    && conversation == st.conversation
    && (|| (OtherCurrent(st, s.inflight) && s.inflight in st.index.seen)
        || (st.cursor.inflight == Some(s.inflight) && s.seqNo <= st.cursor.inflightSeq))
  }

  lemma RestoreIs(st: Chat, conversation: string, s: Snapshot, clock: Clock)
    ensures var x := Rebase(st, conversation, s.seqNo);
      Next(st, Restore(conversation, s, clock)) ==
        if NotRestored(st, conversation, s) then st
        else AdoptSnapshot(x, s.inflight, s.text, s.think, s.toolEvents, s.startedAt, s.command, clock)
  {
  }

  // Restoring one loads it into the bubble its run has in this conversation,
  lemma RestoreShows(st: Chat, conversation: string, s: Snapshot, clock: Clock, was: Message)
    requires conversation == st.conversation && s.inflight != ""
    requires Lookup(st.index.assistantOf, s.inflight) == Some(was.id)
    requires was in st.screen.messages && was.role.Assistant?
    ensures var after := Next(st, Restore(conversation, s, clock));
      if NotRestored(st, conversation, s) then after == st
      else
        && Loads(after.live, s.text, s.think, s.toolEvents)
        && exists m :: m in after.screen.messages && Restarted(was, m, after.live, s.startedAt, s.command)
  {
    RestoreIs(st, conversation, s, clock);
    var x := Rebase(st, conversation, s.seqNo);
    AdoptionLoads(x, s.inflight, s.text, s.think, s.toolEvents, s.startedAt, s.command, clock);
    assert Ensure(x, Key(s.inflight), false, clock).screen == st.screen;
    AdoptionShows(x, s.inflight, s.text, s.think, s.toolEvents, s.startedAt, s.command, clock, was);
  }

  // or into a new bubble;
  lemma RestoreMakesBubble(st: Chat, conversation: string, s: Snapshot, clock: Clock)
    requires s.inflight != "" && !NotRestored(st, conversation, s)
    requires conversation != st.conversation || s.inflight !in st.index.assistantOf
    ensures var after, b := Next(st, Restore(conversation, s, clock)), Local(st.nextId);
      && Loads(after.live, s.text, s.think, s.toolEvents)
      && exists was, m :: NewlyMade(was, b, clock.stamp, EMPTY_LIVE) && m in after.screen.messages
                       && Restarted(was, m, after.live, s.startedAt, s.command)
  {
    RestoreIs(st, conversation, s, clock);
    var x := Rebase(st, conversation, s.seqNo);
    AdoptionLoads(x, s.inflight, s.text, s.think, s.toolEvents, s.startedAt, s.command, clock);
    EnsureMakes(x, Key(s.inflight), false, clock);
    var r := Ensure(x, Key(s.inflight), false, clock);
    var was :| was in r.screen.messages && NewlyMade(was, Local(st.nextId), clock.stamp, EMPTY_LIVE);
    AdoptionShows(x, s.inflight, s.text, s.think, s.toolEvents, s.startedAt, s.command, clock, was);
  }

  // and it makes the run current, its number the one heard, and that bubble the active
  // one; the mappings of another conversation are forgotten.
  lemma RestoreRefs(st: Chat, conversation: string, s: Snapshot, clock: Clock)
    requires s.inflight != "" && !NotRestored(st, conversation, s)
    ensures var after := Next(st, Restore(conversation, s, clock));
      var known := conversation == st.conversation && s.inflight in st.index.assistantOf;
      var b := if known then st.index.assistantOf[s.inflight] else Local(st.nextId);
      && after.conversation == conversation && Lookup(after.index.assistantOf, s.inflight) == Some(b)
      && after.cursor == st.cursor.(inflight := Some(s.inflight), inflightSeq := s.seqNo, streaming := true,
                                    active := Some(b))
      && (conversation != st.conversation ==>
            after.index == Index(map[s.inflight := b], map[s.inflight := b], {s.inflight}, {}))
  {
    RestoreIs(st, conversation, s, clock);
  }
}
