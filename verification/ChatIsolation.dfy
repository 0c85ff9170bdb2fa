// A transcript event touches no bubble but its own inflight's, a stale one leaves
// the live run alone, and a finalized bubble stays as it is.
module ChatIsolation {
  import opened Prelude
  import opened ChatTypes
  import opened ChatModel
  import opened ChatScreen
  import opened ChatIndex

  // The assistant bubbles in order, leaving out the one with id "except".
  function Bubbles(ms: seq<Message>, except: Option<Id>): seq<Message> {
    if ms == [] then []
    else
      var init, last := Bubbles(ms[..|ms| - 1], except), ms[|ms| - 1];
      if last.role.Assistant? && Some(last.id) != except then init + [last] else init
  }

  function BubbleOf(x: Index, i: InflightId): Option<Id> { Lookup(x.historical, i) }

  // ---- list updates ----

  lemma BubblesSnoc(ms: seq<Message>, m: Message, except: Option<Id>)
    ensures Bubbles(ms + [m], except)
         == if m.role.Assistant? && Some(m.id) != except then Bubbles(ms, except) + [m] else Bubbles(ms, except)
  {
    assert (ms + [m])[..|ms|] == ms;
  }

  lemma {:induction false} BubblesEdit(ms: seq<Message>, id: Id, p: Patch)
    ensures Bubbles(Edit(ms, id, p), Some(id)) == Bubbles(ms, Some(id))
  {
    if ms != [] {
      var n := |ms| - 1;
      BubblesEdit(ms[..n], id, p);
      assert Edit(ms, id, p)[..n] == Edit(ms[..n], id, p);
    }
  }

  lemma {:induction false} BubblesDropEchoes(ms: seq<Message>, contents: set<string>, except: Option<Id>)
    ensures Bubbles(DropEchoes(ms, contents), except) == Bubbles(ms, except)
  {
    if ms != [] {
      var n := |ms| - 1;
      BubblesDropEchoes(ms[..n], contents, except);
      BubblesSnoc(DropEchoes(ms[..n], contents), ms[n], except);
    }
  }

  lemma {:induction false} BubblesPoint(ms: seq<Message>, k: nat, m: Message, except: Option<Id>)
    requires k < |ms| && !ms[k].role.Assistant? && !m.role.Assistant?
    ensures Bubbles(ms[k := m], except) == Bubbles(ms, except)
  {
    var n := |ms| - 1;
    if k < n {
      BubblesPoint(ms[..n], k, m, except);
      assert ms[k := m][..n] == ms[..n][k := m];
    } else {
      assert ms[k := m][..n] == ms[..n];
    }
  }

  lemma BubblesInsert(ms: seq<Message>, m: Message, assistant: Option<Id>, except: Option<Id>)
    requires !m.role.Assistant?
    ensures Bubbles(InsertTurn(ms, m, assistant), except) == Bubbles(ms, except)
  {
    BubblesSnoc(ms, m, except);
    if ms != [] {
      var n := |ms| - 1;
      BubblesSnoc(ms[..n], m, except);
      BubblesSnoc(ms[..n] + [m], ms[n], except);
      assert ms[..n] + [m, ms[n]] == ms[..n] + [m] + [ms[n]];
    }
  }

  lemma {:induction false} BubblesMembers(ms: seq<Message>, except: Option<Id>)
    ensures forall m :: m in Bubbles(ms, except) <==> m in ms && m.role.Assistant? && Some(m.id) != except
  {
    if ms != [] {
      BubblesMembers(ms[..|ms| - 1], except);
      assert ms == ms[..|ms| - 1] + [ms[|ms| - 1]];
    }
  }

  // ---- operations ----

  lemma SyncSpares(st: Chat, id: Id, p: Patch)
    ensures Bubbles(Sync(st, id, p).screen.messages, Some(id)) == Bubbles(st.screen.messages, Some(id))
  {
    var ms := Edit(st.screen.messages, id, p);
    BubblesDropEchoes(ms, ConfirmedContents(ms), Some(id));
    BubblesEdit(st.screen.messages, id, p);
  }

  lemma EnsureSpares(st: Chat, key: Option<InflightId>, forceNew: bool, clock: Clock)
    ensures var id := Some(EnsuredId(st, key, forceNew));
      Bubbles(Ensure(st, key, forceNew, clock).screen.messages, id) == Bubbles(st.screen.messages, id)
  {
    var id := EnsuredId(st, key, forceNew);
    var ms := st.screen.messages + [NewBubble(id, clock.stamp)];
    BubblesDropEchoes(ms, ConfirmedContents(ms), Some(id));
    BubblesSnoc(st.screen.messages, NewBubble(id, clock.stamp), Some(id));
  }

  // The user's own messages are no bubbles, whichever of them a turn confirms.
  lemma ShowTurnSpares(st: Chat, bound: Option<Id>, content: string, createdAt: Stamp, now: int, except: Option<Id>)
    requires ChatScreenInv(st) && (bound.Some? ==> bound.value in st.screen.tracked)
    ensures Bubbles(ShowTurn(st, bound, content, createdAt, now).screen.messages, except)
         == Bubbles(st.screen.messages, except)
  {
    var ms := st.screen.messages;
    var next := match PlanTurn(ms, bound, content, createdAt, now)
      case Keep => ms
      case ConfirmAt(k, _) => ms[k := ConfirmedMessage(ms[k], content, createdAt)]
      case Append => InsertTurn(ms, UserMessage(Local(st.nextId), content, createdAt, false), st.cursor.active);
    BubblesDropEchoes(next, ConfirmedContents(next), except);
    match PlanTurn(ms, bound, content, createdAt, now) {
      case Keep =>
      case ConfirmAt(k, _) =>
        assert ms[k] in ms;
        BubblesPoint(ms, k, ConfirmedMessage(ms[k], content, createdAt), except);
      case Append =>
        BubblesInsert(ms, UserMessage(Local(st.nextId), content, createdAt, false), st.cursor.active, except);
    }
  }

  lemma OnIncrementalSpares(st: Chat, e: Event, clock: Clock)
    requires Incremental(e)
    ensures var b := Some(ResolvedId(st, e.inflight));
      Bubbles(OnIncremental(st, e, clock).screen.messages, b) == Bubbles(st.screen.messages, b)
  {
    var i := e.inflight;
    if i !in st.index.finalized && !Mismatch(st, i) {
      EnsureSpares(st, Key(i), false, clock);
      var r := Resolve(st, i, clock);
      var p := NO_PATCH.(body := Some(Advance(r.live, e, Local(r.nextId))), streamStatus := Some(Processing));
      SyncSpares(r, ResolvedId(st, i), p);
    }
  }

  lemma OnSnapshotSpares(st: Chat, e: Event, clock: Clock)
    requires e.InflightSnapshot?
    ensures var b := Some(EnsuredId(st, Key(e.inflight), false));
      Bubbles(OnSnapshot(st, e, clock).screen.messages, b) == Bubbles(st.screen.messages, b)
  {
    var key := Key(e.inflight);
    EnsureSpares(st, key, false, clock);
    var r := Ensure(st, key, false, clock);
    var applied := ApplyTools(SnapshotBody(e.text, e.think), e.toolEvents, r.nextId);
    SyncSpares(r, EnsuredId(st, key, false), StartedPatch(applied.0, e.startedAt, e.command));
  }

  lemma OnUserTurnSpares(st: Chat, e: Event, clock: Clock)
    requires ChatScreenInv(st) && e.UserTurn?
    ensures var b := Some(EnsuredId(AdoptTurn(st, e.inflight), Key(e.inflight), false));
      Bubbles(OnUserTurn(st, e, clock).screen.messages, b) == Bubbles(st.screen.messages, b)
  {
    var i := e.inflight;
    if !TurnIgnored(st, i) {
      var a := AdoptTurn(st, i);
      var id := EnsuredId(a, Key(i), false);
      EnsureSpares(a, Key(i), false, clock);
      EnsureKeeps(a, Key(i), false, clock);
      var r := Ensure(a, Key(i), false, clock);
      var bound := if i == "" then None else Lookup(r.screen.trackedBy, i);
      ShowTurnSpares(r, bound, e.content, e.createdAt, clock.now, Some(id));
    }
  }

  lemma OnFinalSpares(st: Chat, e: Event, clock: Clock)
    requires ChatIndexInv(st) && e.TurnFinal? && e.inflight != ""
    ensures var after := OnFinal(st, e, clock); var b := BubbleOf(after.index, e.inflight);
      Bubbles(after.screen.messages, b) == Bubbles(st.screen.messages, b)
  {
    var i := e.inflight;
    var x := st.(index := Finalize(st.index, i));
    if i in st.index.finalized {
    } else if OutOfBand(st, i) {
      if ExistingBubble(st, i).Some? { SyncSpares(x, ExistingBubble(st, i).value, FinalPatch(e)); }
    } else {
      FinishSpares(x, e, Lookup(st.index.assistantOf, i), clock);
    }
  }

  lemma FinishSpares(x: Chat, e: Event, bubble: Option<Id>, clock: Clock)
    requires e.TurnFinal?
    ensures var b := if bubble.Some? then bubble else Some(EnsuredId(x, Key(e.inflight), false));
      Bubbles(FinishWith(x, e, bubble, clock).screen.messages, b) == Bubbles(x.screen.messages, b)
  {
    EnsureSpares(x, Key(e.inflight), false, clock);
    var r := if bubble.Some? then x else Ensure(x, Key(e.inflight), false, clock);
    var id := if bubble.Some? then bubble.value else EnsuredId(x, Key(e.inflight), false);
    SyncSpares(r, id, FinalPatch(e).(body := Some(FinalBody(e, r.live))));
  }

  // The inflight an event is about owns the bubble the event may write.
  lemma OwnedAfterUpdate(st: Chat, e: Event, clock: Clock)
    requires ChatIndexInv(st) && Incremental(e) && e.inflight != ""
    requires e.inflight !in st.index.finalized && !Mismatch(st, e.inflight)
    ensures BubbleOf(OnIncremental(st, e, clock).index, e.inflight) == Some(ResolvedId(st, e.inflight))
  {
  }

  lemma OwnedAfterTurn(st: Chat, e: Event, clock: Clock)
    requires e.UserTurn? && e.inflight != "" && !TurnIgnored(st, e.inflight)
    ensures BubbleOf(OnUserTurn(st, e, clock).index, e.inflight)
         == Some(EnsuredId(AdoptTurn(st, e.inflight), Key(e.inflight), false))
  {
  }

  // A transcript event for inflight i changes no assistant bubble but i's: the
  // others are the same, in the same order.
  lemma Isolation(st: Chat, e: Event, clock: Clock)
    requires ChatScreenInv(st) && ChatIndexInv(st)
    requires e.Transcript() && e.inflight != ""
    ensures var after := HandleWsEvent(st, e, clock); var b := BubbleOf(after.index, e.inflight);
      Bubbles(after.screen.messages, b) == Bubbles(st.screen.messages, b)
  {
    var h := Heard(st, e);
    if e.conversation != st.conversation {
    } else if e.UserTurn? {
      OnUserTurnSpares(h, e, clock);
      if !TurnIgnored(h, e.inflight) { OwnedAfterTurn(h, e, clock); }
    } else if e.InflightSnapshot? {
      OnSnapshotSpares(h, e, clock);
    } else if e.TurnFinal? {
      OnFinalSpares(h, e, clock);
    } else {
      OnIncrementalSpares(h, e, clock);
      if e.inflight !in h.index.finalized && !Mismatch(h, e.inflight) { OwnedAfterUpdate(h, e, clock); }
    }
  }

  // The bubble an event without an inflight may write: the active one, a last one
  // still processing, or a new one.
  function UnnamedBubble(st: Chat): Id { EnsuredId(st, None, false) }

  lemma UnnamedFinalSpares(st: Chat, e: Event, clock: Clock)
    requires ChatIndexInv(st) && e.TurnFinal? && e.inflight == ""
    ensures var b := Some(UnnamedBubble(st));
      Bubbles(OnFinal(st, e, clock).screen.messages, b) == Bubbles(st.screen.messages, b)
  {
    if "" in st.index.finalized || OutOfBand(st, "") {
      assert OnFinal(st, e, clock).screen == st.screen;
    } else {
      var x := st.(index := Finalize(st.index, ""));
      FinishSpares(x, e, None, clock);
      assert EnsuredId(x, None, false) == UnnamedBubble(st);
      assert OnFinal(st, e, clock) == FinishWith(x, e, None, clock);
    }
  }

  lemma UnnamedIds(st: Chat, e: Event)
    requires ChatIndexInv(st) && e.Transcript()
    ensures var h := Heard(st, e);
      UnnamedBubble(h) == UnnamedBubble(st) == ResolvedId(h, "") && AdoptTurn(h, "") == h && Key("") == None
  {
  }

  // Such an event changes no other bubble.
  lemma UnnamedIsolation(st: Chat, e: Event, clock: Clock)
    requires ChatScreenInv(st) && ChatIndexInv(st)
    requires e.Transcript() && e.inflight == ""
    ensures var b := Some(UnnamedBubble(st));
      Bubbles(HandleWsEvent(st, e, clock).screen.messages, b) == Bubbles(st.screen.messages, b)
  {
    var h := Heard(st, e);
    UnnamedIds(st, e);
    assert h.screen == st.screen;
    if e.conversation != st.conversation {
    } else if e.UserTurn? {
      OnUserTurnSpares(h, e, clock);
      assert HandleWsEvent(st, e, clock) == OnUserTurn(h, e, clock);
    } else if e.InflightSnapshot? {
      OnSnapshotSpares(h, e, clock);
      assert HandleWsEvent(st, e, clock) == OnSnapshot(h, e, clock);
    } else if e.TurnFinal? {
      UnnamedFinalSpares(h, e, clock);
      assert HandleWsEvent(st, e, clock) == OnFinal(h, e, clock);
    } else {
      OnIncrementalSpares(h, e, clock);
      assert HandleWsEvent(st, e, clock) == OnIncremental(h, e, clock);
    }
  }

  // In any run.
  lemma RunIsolates(conversation: string, steps: seq<Step>, e: Event, clock: Clock)
    requires RunOk(conversation, steps) && e.Transcript() && e.inflight != ""
    ensures var before := Run(conversation, steps); var after := Run(conversation, steps + [Ws(e, clock)]);
      var b := BubbleOf(after.index, e.inflight);
      Bubbles(after.screen.messages, b) == Bubbles(before.screen.messages, b)
  {
    RunKeepsScreen(conversation, steps);
    RunKeepsIndex(conversation, steps);
    Isolation(Run(conversation, steps), e, clock);
    assert (steps + [Ws(e, clock)])[..|steps|] == steps;
  }

  // While another inflight is current, an event of one already seen leaves the
  // live buffers, the current inflight, the status and a pending stop unchanged.
  lemma StaleEventChangesNothingLive(st: Chat, e: Event, clock: Clock)
    requires ChatIndexInv(st) && e.Transcript() && StaleReplay(st, e.inflight)
    ensures var after := HandleWsEvent(st, e, clock);
      && after.live == st.live
      && after.cursor.(inflightSeq := 0) == st.cursor.(inflightSeq := 0)
      && (!e.TurnFinal? ==> after.screen == st.screen && after.index == st.index)
  {
    assert StaleReplay(Heard(st, e), e.inflight);
  }
}
