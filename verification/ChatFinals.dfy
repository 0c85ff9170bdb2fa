// Finalization is absorbing: once a final is applied, transcript events leave the
// inflight's bubble as it is.
module ChatFinals {
  import opened Prelude
  import opened ChatTypes
  import opened ChatModel
  import opened ChatScreen
  import opened ChatIndex
  import opened ChatIsolation

  predicate Sound(st: Chat) { ChatScreenInv(st) && ChatIndexInv(st) }

  // An event without an inflight that writes into bubble b: nothing else than the
  // active bubble, or without one a last bubble still processing, is written.
  predicate Writes(st: Chat, e: Event, b: Id) {
    && e.Transcript() && e.inflight == "" && !e.UserTurn? && e.conversation == st.conversation
    && "" !in st.index.finalized && (e.InflightSnapshot? || !Mismatch(st, ""))
    && EnsureTarget(st, None, false) == Some(b)
  }

  // Any transcript event but those.
  predicate Spares(st: Chat, step: Step, b: Id) {
    step.Ws? && step.event.Transcript() && !Writes(st, step.event, b)
  }

  function After(st: Chat, steps: seq<Step>): Chat {
    if steps == [] then st else Next(After(st, steps[..|steps| - 1]), steps[|steps| - 1])
  }

  // The bubble with this id is on neither screen, or the same on both.
  ghost predicate SameBubble(before: seq<Message>, after: seq<Message>, id: Id) {
    forall m: Message | m.role.Assistant? && m.id == id :: m in before <==> m in after
  }

  // Inflight i is final, and b is its bubble.
  predicate Retired(st: Chat, i: InflightId, b: Id) {
    i in st.index.finalized && i in st.index.seen && BubbleOf(st.index, i) == Some(b)
  }

  // A user turn that makes inflight i current again.
  predicate TakesTurn(st: Chat, step: Step, i: InflightId) {
    && step.Ws? && step.event.UserTurn? && step.event.inflight == i && step.event.conversation == st.conversation
    && !TurnIgnored(st, i)
  }

  // ---- one event ----

  lemma StepKeepsSound(st: Chat, step: Step)
    requires Sound(st) && step.Ws?
    ensures Sound(Next(st, step))
  {
    HandleWsEventKeeps(st, step.event, step.clock);
    HandleWsEventIndex(st, step.event, step.clock);
  }

  predicate SameOwnership(x: Index, y: Index, i: InflightId) {
    && (i in y.finalized <==> i in x.finalized) && (i in y.seen <==> i in x.seen)
    && Lookup(y.historical, i) == Lookup(x.historical, i) && Lookup(y.assistantOf, i) == Lookup(x.assistantOf, i)
  }

  lemma EnsureKeepsOthers(st: Chat, key: Option<InflightId>, clock: Clock, i: InflightId)
    requires key != Some(i)
    ensures SameOwnership(st.index, Ensure(st, key, false, clock).index, i)
  {
  }

  lemma IncrementalKeepsOthers(st: Chat, e: Event, clock: Clock, i: InflightId)
    requires Incremental(e) && e.inflight != i
    ensures SameOwnership(st.index, OnIncremental(st, e, clock).index, i)
  {
    EnsureKeepsOthers(st, Key(e.inflight), clock, i);
  }

  lemma SnapshotKeepsOthers(st: Chat, e: Event, clock: Clock, i: InflightId)
    requires e.InflightSnapshot? && e.inflight != i
    ensures SameOwnership(st.index, OnSnapshot(st, e, clock).index, i)
  {
  }

  lemma TurnKeepsOthers(st: Chat, e: Event, clock: Clock, i: InflightId)
    requires e.UserTurn? && e.inflight != i
    ensures SameOwnership(st.index, OnUserTurn(st, e, clock).index, i)
  {
    var a := AdoptTurn(st, e.inflight);
    assert SameOwnership(st.index, a.index, i);
    EnsureKeepsOthers(a, Key(e.inflight), clock, i);
  }

  lemma FinalKeepsOthers(st: Chat, e: Event, clock: Clock, i: InflightId)
    requires e.TurnFinal? && e.inflight != i
    ensures SameOwnership(st.index, OnFinal(st, e, clock).index, i)
  {
    EnsureKeepsOthers(st.(index := Finalize(st.index, e.inflight)), Key(e.inflight), clock, i);
  }

  lemma OtherInflightsKept(st: Chat, e: Event, clock: Clock, i: InflightId)
    requires e.Transcript() && e.inflight != i
    ensures SameOwnership(st.index, HandleWsEvent(st, e, clock).index, i)
  {
    var h := Heard(st, e);
    if e.conversation != st.conversation {
    } else if e.UserTurn? {
      TurnKeepsOthers(h, e, clock, i);
    } else if e.InflightSnapshot? {
      SnapshotKeepsOthers(h, e, clock, i);
    } else if e.TurnFinal? {
      FinalKeepsOthers(h, e, clock, i);
    } else {
      IncrementalKeepsOthers(h, e, clock, i);
    }
  }

  // Bubbles other than the one the event's inflight owns afterwards stay.
  lemma OtherBubbleKept(st: Chat, step: Step, b: Id)
    requires Sound(st) && step.Ws? && step.event.Transcript() && step.event.inflight != "" && Known(b, st.nextId)
    requires BubbleOf(Next(st, step).index, step.event.inflight) != Some(b)
    ensures SameBubble(st.screen.messages, Next(st, step).screen.messages, b)
  {
    var after := Next(st, step);
    var owner := BubbleOf(after.index, step.event.inflight);
    Isolation(st, step.event, step.clock);
    BubblesMembers(st.screen.messages, owner);
    BubblesMembers(after.screen.messages, owner);
  }

  // A user turn without an inflight writes no bubble.
  lemma UnnamedTurnKeepsBubbles(st: Chat, e: Event, clock: Clock, b: Id)
    requires Sound(st) && e.UserTurn? && e.inflight == "" && Known(b, st.nextId)
    ensures SameBubble(st.screen.messages, HandleWsEvent(st, e, clock).screen.messages, b)
  {
    if e.conversation == st.conversation {
      var h := Heard(st, e);
      EnsureKeeps(h, None, false, clock);
      EnsureSpares(h, None, false, clock);
      var r := Ensure(h, None, false, clock);
      var id := Some(EnsuredId(h, None, false));
      BubblesMembers(h.screen.messages, id);
      BubblesMembers(r.screen.messages, id);
      assert SameBubble(h.screen.messages, r.screen.messages, b);
      ShowTurnSpares(r, None, e.content, e.createdAt, clock.now, None);
      var after := HandleWsEvent(st, e, clock).screen.messages;
      BubblesMembers(r.screen.messages, None);
      BubblesMembers(after, None);
    }
  }

  lemma UnnamedIgnored(st: Chat, e: Event, clock: Clock, b: Id)
    requires Sound(st) && e.Transcript() && e.inflight == "" && !e.UserTurn? && !Writes(st, e, b)
    requires UnnamedBubble(st) == b && Known(b, st.nextId)
    ensures HandleWsEvent(st, e, clock).screen == st.screen
  {
    var h := Heard(st, e);
    assert EnsureTarget(st, None, false) == Some(b);
    if e.TurnFinal? { assert OutOfBand(h, "") ==> ExistingBubble(h, "") == None; }
  }

  lemma UnnamedKeepsBubble(st: Chat, e: Event, clock: Clock, b: Id)
    requires Sound(st) && e.Transcript() && e.inflight == "" && Known(b, st.nextId) && !Writes(st, e, b)
    ensures SameBubble(st.screen.messages, HandleWsEvent(st, e, clock).screen.messages, b)
  {
    if e.UserTurn? {
      UnnamedTurnKeepsBubbles(st, e, clock, b);
    } else if UnnamedBubble(st) == b {
      UnnamedIgnored(st, e, clock, b);
    } else {
      UnnamedIsolation(st, e, clock);
      BubblesMembers(st.screen.messages, Some(UnnamedBubble(st)));
      BubblesMembers(HandleWsEvent(st, e, clock).screen.messages, Some(UnnamedBubble(st)));
    }
  }

  lemma RetiredStays(st: Chat, step: Step, i: InflightId, b: Id)
    requires Sound(st) && Retired(st, i, b) && Spares(st, step, b) && !TakesTurn(st, step, i)
    ensures var after := Next(st, step);
      && Sound(after) && Retired(after, i, b)
      && (i in after.index.assistantOf <==> i in st.index.assistantOf)
      && SameBubble(st.screen.messages, after.screen.messages, b)
  {
    var e := step.event;
    StepKeepsSound(st, step);
    if e.inflight == i {
      assert Next(st, step).screen == st.screen && Next(st, step).index == st.index;
    } else {
      OtherInflightsKept(st, e, step.clock, i);
      if e.inflight == "" {
        UnnamedKeepsBubble(st, e, step.clock, b);
      } else {
        OtherBubbleKept(st, step, b);
      }
    }
  }

  // ---- absorption ----

  // From a final on, no run of transcript events changes the bubble, as long as no
  // user turn takes the inflight up again and no event without an inflight writes it.
  lemma {:induction false} FinalAbsorbs(st: Chat, steps: seq<Step>, i: InflightId, b: Id)
    requires Sound(st) && Retired(st, i, b) && Quiet(st, steps, i, b)
    ensures Sound(After(st, steps)) && Retired(After(st, steps), i, b)
    ensures i in After(st, steps).index.assistantOf <==> i in st.index.assistantOf
    ensures SameBubble(st.screen.messages, After(st, steps).screen.messages, b)
  {
    if steps != [] {
      var n := |steps| - 1;
      QuietPrefix(st, steps, i, b);
      FinalAbsorbs(st, steps[..n], i, b);
      RetiredStays(After(st, steps[..n]), steps[n], i, b);
    }
  }

  ghost predicate Quiet(st: Chat, steps: seq<Step>, i: InflightId, b: Id) {
    forall k | 0 <= k < |steps| ::
      Spares(After(st, steps[..k]), steps[k], b) && !TakesTurn(After(st, steps[..k]), steps[k], i)
  }

  lemma QuietPrefix(st: Chat, steps: seq<Step>, i: InflightId, b: Id)
    requires steps != [] && Quiet(st, steps, i, b)
    ensures Quiet(st, steps[..|steps| - 1], i, b)
    ensures var n := |steps| - 1;
      Spares(After(st, steps[..n]), steps[n], b) && !TakesTurn(After(st, steps[..n]), steps[n], i)
  {
    var n := |steps| - 1;
    assert forall k | 0 <= k < n :: steps[..n][..k] == steps[..k];
  }

  // Such a turn is ignored exactly while a different inflight is current.
  lemma TurnNeedsItsInflight(st: Chat, step: Step, i: InflightId, b: Id)
    requires Sound(st) && Retired(st, i, b)
    requires step.Ws? && step.event.UserTurn? && step.event.inflight == i && step.event.conversation == st.conversation
    ensures TakesTurn(st, step, i) <==> !Mismatch(st, i)
    ensures Mismatch(st, i) ==> Next(st, step).screen == st.screen && Next(st, step).live == st.live
                                && Next(st, step).index == st.index
  {
    assert i != "";
    if Mismatch(st, i) { StaleEventChangesNothingLive(st, step.event, step.clock); }
  }

  // A final that is not a replay retires its inflight.
  lemma FinalRetires(st: Chat, e: Event, clock: Clock, b: Id)
    requires Sound(st) && e.TurnFinal? && e.conversation == st.conversation
    requires e.inflight != "" && e.inflight !in st.index.finalized
    requires BubbleOf(HandleWsEvent(st, e, clock).index, e.inflight) == Some(b)
    ensures Retired(HandleWsEvent(st, e, clock), e.inflight, b)
  {
  }

  // In any run: after a final the bubble stays as the final left it.
  lemma RunFinalAbsorbs(conversation: string, steps: seq<Step>, e: Event, clock: Clock, later: seq<Step>, b: Id)
    requires RunOk(conversation, steps) && e.TurnFinal?
    requires var before := Run(conversation, steps);
      e.conversation == before.conversation && e.inflight != "" && e.inflight !in before.index.finalized
    requires var final := Run(conversation, steps + [Ws(e, clock)]);
      && BubbleOf(final.index, e.inflight) == Some(b)
      && Quiet(final, later, e.inflight, b)
    ensures var final := Run(conversation, steps + [Ws(e, clock)]);
      SameBubble(final.screen.messages, After(final, later).screen.messages, b)
  {
    RunKeepsScreen(conversation, steps);
    RunKeepsIndex(conversation, steps);
    var before := Run(conversation, steps);
    assert (steps + [Ws(e, clock)])[..|steps|] == steps;
    StepKeepsSound(before, Ws(e, clock));
    FinalRetires(before, e, clock, b);
    FinalAbsorbs(Next(before, Ws(e, clock)), later, e.inflight, b);
  }

  // ---- what a final leaves in its bubble ----

  // Message "was" as the final e leaves it, apart from its body: complete, stopped or
  // failed as the final says, an error if it failed, with the final's usage and timing
  // where it has them, and otherwise as it was.
  predicate EndsAs(was: Message, m: Message, e: Event)
    requires e.TurnFinal?
  {
    && m.id == was.id && m.role == was.role && m.optimistic == was.optimistic
    && m.createdAt == was.createdAt && m.command == was.command
    && (e.status.OkFinal? ==> m.streamStatus == Some(Complete))
    && (e.status.StoppedFinal? ==> m.streamStatus == Some(Stopped))
    && (e.status.FailedFinal? ==> m.streamStatus == Some(Failed) && m.kind == Some(ErrorKind))
    && (!e.status.FailedFinal? ==> m.kind == was.kind)
    && m.usage == (if e.usage.Some? then e.usage else was.usage)
    && m.timing == (if e.timing.Some? then e.timing else was.timing)
  }

  // The body a final leaves: what was live, except that a failed run that wrote nothing
  // visible shows its error in place of its text.
  predicate EndsWith(live: Body, body: Body, e: Event)
    requires e.TurnFinal?
  {
    if e.status.FailedFinal? && Blank(live.text) && e.error.Some? && e.error.value != "" then
      body == live.(text := e.error.value, segments := [Text(e.error.value)])
    else body == live
  }

  // An edited bubble is on screen afterwards.
  lemma SyncShows(st: Chat, m: Message, p: Patch)
    requires m in st.screen.messages && m.role.Assistant?
    ensures Patched(m, p) in Sync(st, m.id, p).screen.messages
  {
    var k :| 0 <= k < |st.screen.messages| && st.screen.messages[k] == m;
    var edited := Edit(st.screen.messages, m.id, p);
    assert edited[k] == Patched(m, p) && edited[k] in edited;
    CollapseClears(edited);
  }

  lemma FinalPatchEnds(m: Message, e: Event, body: Option<Body>)
    requires e.TurnFinal?
    ensures EndsAs(m, Patched(m, FinalPatch(e).(body := body)), e)
    ensures Patched(m, FinalPatch(e).(body := body)).body == if body.Some? then body.value else m.body
  {
  }

  // The final of the current run: its bubble ends as the final says with what was live,
  // and the run is over.
  lemma CurrentFinalEnds(st: Chat, e: Event, clock: Clock, was: Message)
    requires Sound(st) && e.TurnFinal? && e.conversation == st.conversation && e.inflight !in st.index.finalized
    requires st.cursor.inflight == Some(e.inflight) && Lookup(st.index.assistantOf, e.inflight) == Some(was.id)
    requires was in st.screen.messages && was.role.Assistant?
    ensures var after := HandleWsEvent(st, e, clock);
      && after.cursor.status == Idle && !after.cursor.streaming && after.cursor.inflight == Some(e.inflight)
      && after.cursor.stopRequest == None && after.cursor.stopInflight == None
      && EndsWith(st.live, after.live, e)
      && exists m :: m in after.screen.messages && EndsAs(was, m, e) && m.body == after.live
  {
    var h := Heard(st, e);
    var x := h.(index := Finalize(h.index, e.inflight));
    var live := FinalBody(e, x.live);
    FinalPatchEnds(was, e, Some(live));
    SyncShows(x, was, FinalPatch(e).(body := Some(live)));
    assert Patched(was, FinalPatch(e).(body := Some(live))) in HandleWsEvent(st, e, clock).screen.messages;
  }

  // A late final (another run is current, or none is and this one still has its bubble)
  // marks the bubble its inflight has on screen without touching its content, and
  // leaves the live run alone.
  lemma LateFinalMarks(st: Chat, e: Event, clock: Clock, was: Message)
    requires Sound(st) && e.TurnFinal? && e.conversation == st.conversation && e.inflight !in st.index.finalized
    requires st.cursor.inflight != Some(e.inflight)
          && (st.cursor.inflight.Some? || e.inflight in st.index.assistantOf)
    requires BubbleOf(st.index, e.inflight) == Some(was.id) && was in st.screen.messages && was.role.Assistant?
    ensures var after := HandleWsEvent(st, e, clock);
      && after.live == st.live && after.cursor.(inflightSeq := 0) == st.cursor.(inflightSeq := 0)
      && exists m :: m in after.screen.messages && EndsAs(was, m, e) && m.body == was.body
  {
    var h := Heard(st, e);
    var x := h.(index := Finalize(h.index, e.inflight));
    var k :| 0 <= k < |st.screen.messages| && st.screen.messages[k] == was;
    assert Visible(h.screen.messages, was.id) && ExistingBubble(h, e.inflight) == Some(was.id);
    FinalPatchEnds(was, e, None);
    SyncShows(x, was, FinalPatch(e));
    assert Patched(was, FinalPatch(e)) in HandleWsEvent(st, e, clock).screen.messages;
  }

  // A late final without a bubble on screen only marks its inflight.
  lemma LateFinalSuppressed(st: Chat, e: Event, clock: Clock)
    requires Sound(st) && e.TurnFinal? && e.conversation == st.conversation && e.inflight !in st.index.finalized
    requires st.cursor.inflight.Some? && st.cursor.inflight != Some(e.inflight)
    requires e.inflight !in st.index.assistantOf
    requires forall m | m in st.screen.messages && BubbleOf(st.index, e.inflight) == Some(m.id) :: !m.role.Assistant?
    ensures var after := HandleWsEvent(st, e, clock);
      && after.screen == st.screen && after.live == st.live
      && after.cursor.(inflightSeq := 0) == st.cursor.(inflightSeq := 0)
      && after.index.finalized == st.index.finalized + {e.inflight}
  {
    assert ExistingBubble(Heard(st, e), e.inflight).None?;
  }

  // An unmapped inflight's final, with no other run current, makes the bubble it ends:
  // empty, or showing the error of a failed run.
  lemma UnmappedFinalEnds(st: Chat, e: Event, clock: Clock)
    requires Sound(st) && e.TurnFinal? && e.conversation == st.conversation && e.inflight !in st.index.finalized
    requires e.inflight != "" && e.inflight !in st.index.assistantOf
    requires st.cursor.inflight.None? || st.cursor.inflight == Some(e.inflight)
    ensures var after, b := HandleWsEvent(st, e, clock), Local(st.nextId);
      && BubbleOf(after.index, e.inflight) == Some(b) && after.cursor.status == Idle && !after.cursor.streaming
      && EndsWith(Body("", "", [Text("")], [], [], []), after.live, e)
      && exists m, was ::
           && m in after.screen.messages && EndsAs(was, m, e) && m.body == after.live
           && was.id == b && was.role.Assistant? && was.createdAt == clock.stamp && was.kind == None
           && was.usage == None && was.timing == None && was.command == None
  {
    var h := Heard(st, e);
    var x := h.(index := Finalize(h.index, e.inflight));
    var r := Ensure(x, Key(e.inflight), false, clock);
    var was := NewBubble(Local(st.nextId), clock.stamp);
    assert was in x.screen.messages + [was];
    CollapseClears(x.screen.messages + [was]);
    assert was in r.screen.messages;
    var live := FinalBody(e, r.live);
    FinalPatchEnds(was, e, Some(live));
    SyncShows(r, was, FinalPatch(e).(body := Some(live)));
    assert Patched(was, FinalPatch(e).(body := Some(live))) in HandleWsEvent(st, e, clock).screen.messages;
  }

  // Every message an edit names carries the status it sets.
  lemma EditedStatus(ms: seq<Message>, contents: set<string>, id: Id, p: Patch)
    requires p.streamStatus.Some?
    ensures forall m | m in DropEchoes(Edit(ms, id, p), contents) && m.id == id :: m.streamStatus == p.streamStatus
  {
    DropEchoesMembers(Edit(ms, id, p), contents);
    var r := Edit(ms, id, p);
    forall m | m in r && m.id == id ensures m.streamStatus == p.streamStatus {
      var k :| 0 <= k < |r| && r[k] == m;
      assert ms[k].id == id;
    }
  }

  // ---- a mapped inflight never gets its bubble back ----

  // No inflight that can still act owns bubble b.
  predicate Settled(st: Chat, b: Id) {
    && Known(b, st.nextId)
    && forall k | k in st.index.historical && st.index.historical[k] == b ::
         k in st.index.finalized && k !in st.index.assistantOf
  }

  lemma FinalSettles(st: Chat, e: Event, clock: Clock)
    requires Sound(st) && e.TurnFinal? && e.conversation == st.conversation
    requires e.inflight !in st.index.finalized && e.inflight in st.index.assistantOf
    ensures Settled(HandleWsEvent(st, e, clock), st.index.assistantOf[e.inflight])
  {
  }

  lemma SettledStays(st: Chat, step: Step, b: Id)
    requires Sound(st) && Settled(st, b) && Spares(st, step, b)
    ensures Sound(Next(st, step)) && Settled(Next(st, step), b)
    ensures SameBubble(st.screen.messages, Next(st, step).screen.messages, b)
  {
    var e, after := step.event, Next(st, step);
    StepKeepsSound(st, step);
    forall k | k in after.index.historical && after.index.historical[k] == b
      ensures k in after.index.finalized && k !in after.index.assistantOf
    {
      if k != e.inflight { OtherInflightsKept(st, e, step.clock, k); } else { OwnBubbleMoves(st, step, b); }
    }
    if e.inflight == "" {
      UnnamedKeepsBubble(st, e, step.clock, b);
    } else if BubbleOf(after.index, e.inflight) == Some(b) {
      OwnBubbleMoves(st, step, b);
    } else {
      OtherBubbleKept(st, step, b);
    }
    assert after.nextId >= st.nextId by { NextIdGrows(st, e, step.clock); }
  }

  lemma NextIdGrows(st: Chat, e: Event, clock: Clock)
    ensures HandleWsEvent(st, e, clock).nextId >= st.nextId
  {
    if e.InflightSnapshot? {
      ApplyToolsCounts(SnapshotBody(e.text, e.think), e.toolEvents,
          Ensure(Heard(st, e), Key(e.inflight), false, clock).nextId);
    }
  }

  // An event of the retired owner is ignored, or gives the inflight a new bubble.
  lemma OwnBubbleMoves(st: Chat, step: Step, b: Id)
    requires Sound(st) && Settled(st, b) && step.Ws? && step.event.Transcript()
    requires BubbleOf(Next(st, step).index, step.event.inflight) == Some(b)
    ensures Next(st, step).screen == st.screen && Next(st, step).index == st.index
    ensures BubbleOf(st.index, step.event.inflight) == Some(b)
  {
    var e, h := step.event, Heard(st, step.event);
    if e.conversation != st.conversation {
    } else if e.UserTurn? {
      TurnMoves(h, e, step.clock, b);
    } else if e.InflightSnapshot? {
      SnapshotMoves(h, e, step.clock, b);
    } else if e.TurnFinal? {
      FinalMoves(h, e, step.clock, b);
    } else {
      IncrementalMoves(h, e, step.clock, b);
    }
  }

  lemma IncrementalMoves(st: Chat, e: Event, clock: Clock, b: Id)
    requires Sound(st) && Settled(st, b) && Incremental(e)
    ensures BubbleOf(OnIncremental(st, e, clock).index, e.inflight) == Some(b) ==>
      OnIncremental(st, e, clock) == st
  {
  }

  lemma SnapshotMoves(st: Chat, e: Event, clock: Clock, b: Id)
    requires Sound(st) && Settled(st, b) && e.InflightSnapshot?
    ensures BubbleOf(OnSnapshot(st, e, clock).index, e.inflight) == Some(b) ==> OnSnapshot(st, e, clock) == st
  {
  }

  lemma TurnMoves(st: Chat, e: Event, clock: Clock, b: Id)
    requires Sound(st) && Settled(st, b) && e.UserTurn?
    ensures BubbleOf(OnUserTurn(st, e, clock).index, e.inflight) == Some(b) ==> OnUserTurn(st, e, clock) == st
  {
  }

  lemma FinalMoves(st: Chat, e: Event, clock: Clock, b: Id)
    requires Sound(st) && Settled(st, b) && e.TurnFinal?
    ensures BubbleOf(OnFinal(st, e, clock).index, e.inflight) == Some(b) ==> OnFinal(st, e, clock) == st
  {
  }

  // The bubble of a final for a mapped inflight is done with for good: no run of
  // transcript events changes it, not even one that takes the inflight up again,
  // unless an event without an inflight writes it.
  lemma {:induction false} SettledForever(st: Chat, steps: seq<Step>, b: Id)
    requires Sound(st) && Settled(st, b)
    requires forall k | 0 <= k < |steps| :: Spares(After(st, steps[..k]), steps[k], b)
    ensures Sound(After(st, steps)) && Settled(After(st, steps), b)
    ensures SameBubble(st.screen.messages, After(st, steps).screen.messages, b)
  {
    if steps != [] {
      var n := |steps| - 1;
      assert forall k | 0 <= k < n :: steps[..n][..k] == steps[..k];
      SettledForever(st, steps[..n], b);
      SettledStays(After(st, steps[..n]), steps[n], b);
    }
  }

  // A turn that takes a final inflight up again reuses its bubble exactly when the
  // final had left the inflight mapped,
  lemma TurnReusesMappedBubble(st: Chat, step: Step, i: InflightId, b: Id)
    requires Sound(st) && Retired(st, i, b) && TakesTurn(st, step, i)
    ensures BubbleOf(Next(st, step).index, i) == Some(b) <==> i in st.index.assistantOf
  {
  }

  // and a final does so exactly when it found no mapping and made the bubble itself.
  lemma FinalLeavesMapping(st: Chat, e: Event, clock: Clock)
    requires Sound(st) && e.TurnFinal? && e.conversation == st.conversation
    requires e.inflight != "" && e.inflight !in st.index.finalized
    ensures e.inflight in HandleWsEvent(st, e, clock).index.assistantOf
       <==> e.inflight !in st.index.assistantOf && !Mismatch(st, e.inflight)
  {
  }

  // However much later a turn takes the inflight up again, it reuses the final's
  // bubble if and only if that final was for an unmapped inflight and ended the run.
  lemma ReopenedExactly(st: Chat, e: Event, clock: Clock, later: seq<Step>, turn: Step, b: Id)
    requires Sound(st) && e.TurnFinal? && e.conversation == st.conversation
    requires e.inflight != "" && e.inflight !in st.index.finalized
    requires var final := HandleWsEvent(st, e, clock);
      && BubbleOf(final.index, e.inflight) == Some(b) && Quiet(final, later, e.inflight, b)
      && TakesTurn(After(final, later), turn, e.inflight)
    ensures var last := After(HandleWsEvent(st, e, clock), later);
      (BubbleOf(Next(last, turn).index, e.inflight) == Some(b))
        <==> (e.inflight !in st.index.assistantOf && !Mismatch(st, e.inflight))
  {
    var final := HandleWsEvent(st, e, clock);
    StepKeepsSound(st, Ws(e, clock));
    FinalRetires(st, e, clock, b);
    FinalAbsorbs(final, later, e.inflight, b);
    FinalLeavesMapping(st, e, clock);
    TurnReusesMappedBubble(After(final, later), turn, e.inflight, b);
  }
}
