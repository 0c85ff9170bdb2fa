// Events without an inflight id and final bubbles: exactly when such an event changes
// one, and a run in which it does.
module ChatUnnamed {
  import opened Prelude
  import opened ChatTypes
  import opened ChatModel
  import opened ChatScreen
  import opened ChatIndex
  import opened ChatIsolation
  import opened ChatFinals
  import opened ChatDelivery
  import opened ChatOutcomes

  // The guard a caller can check: the event is for this conversation, no final without
  // an inflight has been applied, no run is current (snapshots do not ask), and b is
  // the active bubble.
  predicate ReachesActive(st: Chat, e: Event, b: Id)
    requires e.Transcript() && e.inflight == "" && !e.UserTurn?
  {
    && e.conversation == st.conversation && "" !in st.index.finalized
    && (e.InflightSnapshot? || !Mismatch(st, "")) && st.cursor.active == Some(b)
  }

  // A bubble that is no longer processing is written exactly under that guard.
  lemma FinishedIsWritten(st: Chat, e: Event, m: Message)
    requires Sound(st) && e.Transcript() && e.inflight == "" && !e.UserTurn?
    requires m in st.screen.messages && m.role.Assistant? && m.streamStatus != Some(Processing)
    ensures Writes(st, e, m.id) <==> ReachesActive(st, e, m.id)
  {
    forall x | x in st.screen.messages && x.id == m.id ensures x == m { SameIdSame(st.screen.messages, x, m); }
  }

  // The patch a snapshot or an incremental event puts on the bubble it writes.
  lemma WrittenIsProcessing(st: Chat, e: Event, clock: Clock, b: Id)
    requires Sound(st) && Writes(st, e, b) && !e.TurnFinal?
    ensures forall x | x in HandleWsEvent(st, e, clock).screen.messages && x.id == b ::
        x.streamStatus == Some(Processing)
  {
    var h := Heard(st, e);
    assert EnsuredId(h, None, false) == b && Key("") == None;
    if e.InflightSnapshot? {
      SnapshotProcesses(h, e, clock, b);
    } else {
      var r := Resolve(h, "", clock);
      var p := NO_PATCH.(body := Some(Advance(r.live, e, Local(r.nextId))), streamStatus := Some(Processing));
      EditedStatus(r.screen.messages, ConfirmedContents(Edit(r.screen.messages, b, p)), b, p);
    }
  }

  lemma SnapshotProcesses(st: Chat, e: Event, clock: Clock, b: Id)
    requires e.InflightSnapshot? && e.inflight == "" && "" !in st.index.finalized && !StaleReplay(st, "")
    requires EnsuredId(st, None, false) == b
    ensures forall x | x in OnSnapshot(st, e, clock).screen.messages && x.id == b :: x.streamStatus == Some(Processing)
  {
    var r := Ensure(st, None, false, clock);
    var applied := ApplyTools(SnapshotBody(e.text, e.think), e.toolEvents, r.nextId);
    var p := StartedPatch(applied.0, e.startedAt, e.command);
    EditedStatus(r.screen.messages, ConfirmedContents(Edit(r.screen.messages, b, p)), b, p);
  }

  // A snapshot or incremental event without an inflight changes a finished bubble on
  // screen if and only if the guard holds.
  lemma UnnamedUpdateChangesExactly(st: Chat, e: Event, clock: Clock, m: Message)
    requires Sound(st) && (e.InflightSnapshot? || Incremental(e)) && e.inflight == ""
    requires m in st.screen.messages && m.role.Assistant? && m.streamStatus != Some(Processing)
        && Known(m.id, st.nextId)
    ensures SameBubble(st.screen.messages, HandleWsEvent(st, e, clock).screen.messages, m.id)
       <==> !ReachesActive(st, e, m.id)
  {
    FinishedIsWritten(st, e, m);
    if Writes(st, e, m.id) {
      WrittenIsProcessing(st, e, clock, m.id);
    } else {
      UnnamedKeepsBubble(st, e, clock, m.id);
    }
  }

  lemma UnnamedFinalWrites(st: Chat, e: Event, clock: Clock, m: Message)
    requires Sound(st) && e.TurnFinal? && Writes(st, e, m.id)
    requires m in st.screen.messages && m.role.Assistant?
    ensures exists written: Message ::
      && EndsAs(m, written, e) && EndsWith(st.live, written.body, e)
      && forall x: Message | x.id == m.id && x.role.Assistant? ::
           x in HandleWsEvent(st, e, clock).screen.messages <==> x == written
  {
    var h := Heard(st, e);
    var x := h.(index := Finalize(h.index, ""));
    assert EnsuredId(x, None, false) == m.id && Key("") == None;
    var r := Ensure(x, None, false, clock);
    assert r.live == st.live && r.screen == st.screen;
    assert HandleWsEvent(st, e, clock) == FinishWith(x, e, None, clock);
    var p := FinalPatch(e).(body := Some(FinalBody(e, st.live)));
    EditedOnly(r.screen, m, p);
    FinalPatchEnds(m, e, Some(FinalBody(e, st.live)));
    assert EndsAs(m, Patched(m, p), e);
  }

  // Only one message ends another as the final says.
  lemma EndsOneWay(was: Message, a: Message, b: Message, live: Body, e: Event)
    requires e.TurnFinal? && EndsAs(was, a, e) && EndsAs(was, b, e)
    requires EndsWith(live, a.body, e) && EndsWith(live, b.body, e)
    ensures a == b
  {
  }

  lemma EditedOnly(s: Screen, m: Message, p: Patch)
    requires Distinct(s.messages) && m in s.messages && m.role.Assistant?
    ensures forall x: Message | x.id == m.id && x.role.Assistant? ::
      x in Show(s, Edit(s.messages, m.id, p)).messages <==> x == Patched(m, p)
  {
    var edited := Edit(s.messages, m.id, p);
    CollapseClears(edited);
    var k :| 0 <= k < |s.messages| && s.messages[k] == m;
    assert edited[k] == Patched(m, p) && edited[k] in edited;
    forall x | x in edited && x.id == m.id ensures x == Patched(m, p) {
      var j :| 0 <= j < |edited| && edited[j] == x;
      assert s.messages[j] in s.messages;
      SameIdSame(s.messages, s.messages[j], m);
    }
  }

  // A final without an inflight changes a finished bubble on screen if and only if
  // the guard holds and the bubble does not already end as the final says.
  lemma UnnamedFinalChangesExactly(st: Chat, e: Event, clock: Clock, m: Message)
    requires Sound(st) && e.TurnFinal? && e.inflight == ""
    requires m in st.screen.messages && m.role.Assistant? && m.streamStatus != Some(Processing)
        && Known(m.id, st.nextId)
    ensures SameBubble(st.screen.messages, HandleWsEvent(st, e, clock).screen.messages, m.id)
       <==> !ReachesActive(st, e, m.id) || (EndsAs(m, m, e) && EndsWith(st.live, m.body, e))
  {
    FinishedIsWritten(st, e, m);
    if Writes(st, e, m.id) {
      UnnamedFinalWrites(st, e, clock, m);
      var written: Message :|
        && EndsAs(m, written, e) && EndsWith(st.live, written.body, e)
        && forall x: Message | x.id == m.id && x.role.Assistant? ::
             x in HandleWsEvent(st, e, clock).screen.messages <==> x == written;
      if EndsAs(m, m, e) && EndsWith(st.live, m.body, e) { EndsOneWay(m, m, written, st.live, e); }
      forall x | x in st.screen.messages && x.id == m.id ensures x == m { SameIdSame(st.screen.messages, x, m); }
    } else {
      UnnamedKeepsBubble(st, e, clock, m.id);
    }
  }

  // Where an update without an inflight goes: the active bubble, or without one the last
  // message if it is a bubble still processing.
  function Home(st: Chat): Option<Id> {
    var ms := st.screen.messages;
    if st.cursor.active.Some? then st.cursor.active
    else if ms != [] && ms[|ms| - 1].role == Assistant && ms[|ms| - 1].streamStatus == Some(Processing)
    then Some(ms[|ms| - 1].id) else None
  }

  // Such an update, with no run current and none without a name final, is shown there
  // with all that is live,
  lemma UnnamedUpdateShown(st: Chat, e: Event, clock: Clock, was: Message)
    requires ChatIndexInv(st) && Incremental(e) && e.inflight == "" && e.conversation == st.conversation
    requires "" !in st.index.finalized && (st.cursor.inflight.None? || st.cursor.inflight == Some(""))
    requires was in st.screen.messages && was.role.Assistant? && Home(st) == Some(was.id)
    ensures var after := HandleWsEvent(st, e, clock);
      && Adds(st.live, after.live, e) && after.cursor.active == Some(was.id)
      && was.(body := after.live, streamStatus := Some(Processing)) in after.screen.messages
  {
    var h := Heard(st, e);
    assert EnsureTarget(h, None, false) == Home(st) && Key("") == None;
    AbsorbShows(Ensure(h, None, false, clock), e, was);
  }

  // or in a new bubble.
  lemma UnnamedUpdateMakesBubble(st: Chat, e: Event, clock: Clock)
    requires ChatIndexInv(st) && Incremental(e) && e.inflight == "" && e.conversation == st.conversation
    requires "" !in st.index.finalized && (st.cursor.inflight.None? || st.cursor.inflight == Some(""))
    requires Home(st).None?
    ensures var after, b := HandleWsEvent(st, e, clock), Local(st.nextId);
      && Adds(EMPTY_LIVE, after.live, e) && after.cursor.active == Some(b)
      && exists m :: m in after.screen.messages && NewlyMade(m, b, clock.stamp, after.live)
  {
    var h := Heard(st, e);
    assert EnsureTarget(h, None, false) == Home(st) && Key("") == None;
    EnsureMakes(h, None, false, clock);
    var r := Ensure(h, None, false, clock);
    var m :| m in r.screen.messages && NewlyMade(m, Local(st.nextId), clock.stamp, EMPTY_LIVE);
    AbsorbShows(r, e, m);
    var live := Absorb(r, e, m.id).live;
    assert NewlyMade(m.(body := live, streamStatus := Some(Processing)), m.id, clock.stamp, live);
  }

  // ---- a reachable witness ----

  lemma TurnMakesActive(st: Chat, s: Server, turn: Event, clock: Clock)
    requires Sound(st) && turn.UserTurn? && s.Sends(turn) && s.inflight != "" && st.conversation == s.conversation
    requires !TurnIgnored(st, s.inflight) && s.inflight !in st.index.assistantOf
    ensures var mid := HandleWsEvent(st, turn, clock);
      && Sound(mid) && Adopted(mid, s, Local(st.nextId)) && mid.cursor.active == Some(Local(st.nextId))
      && ("" in mid.index.finalized <==> "" in st.index.finalized)
  {
    TurnAdopts(st, s, turn, clock);
    StepKeepsSound(st, Ws(turn, clock));
    OtherInflightsKept(st, turn, clock, "");
    TurnActivates(Heard(st, turn), turn, clock);
  }

  // A run is adopted by its user turn and ends; its bubble is then finished, settled
  // and still the active one.
  lemma TurnThenFinal(st: Chat, s: Server, turn: Event, final: Event, clock: Clock)
    requires Sound(st) && turn.UserTurn? && s.Sends(turn) && s.inflight != "" && st.conversation == s.conversation
    requires !TurnIgnored(st, s.inflight) && s.inflight !in st.index.assistantOf
    requires final.TurnFinal? && final.inflight == s.inflight && final.conversation == s.conversation
    ensures var last := HandleWsEvent(HandleWsEvent(st, turn, clock), final, clock);
      && Sound(last) && last.conversation == st.conversation && last.cursor.active == Some(Local(st.nextId))
      && Settled(last, Local(st.nextId)) && ("" in last.index.finalized <==> "" in st.index.finalized)
      && exists m :: m in last.screen.messages && m.id == Local(st.nextId) && m.role.Assistant?
                  && m.streamStatus != Some(Processing)
  {
    TurnMakesActive(st, s, turn, clock);
    FinalEnds(HandleWsEvent(st, turn, clock), s, Local(st.nextId), final, clock);
  }

  lemma FinalEnds(mid: Chat, s: Server, b: Id, final: Event, clock: Clock)
    requires Sound(mid) && Adopted(mid, s, b) && mid.cursor.active == Some(b)
    requires final.TurnFinal? && final.inflight == s.inflight && final.conversation == s.conversation
    ensures var last := HandleWsEvent(mid, final, clock);
      && Sound(last) && last.conversation == mid.conversation && last.cursor.active == Some(b)
      && Settled(last, b) && ("" in last.index.finalized <==> "" in mid.index.finalized)
      && exists m :: m in last.screen.messages && m.id == b && m.role.Assistant? && m.streamStatus != Some(Processing)
  {
    var was :| was in mid.screen.messages && was.id == b && was.role.Assistant? && was.body == mid.live;
    FinalFinishes(mid, s, b, final, clock, was);
    StepKeepsSound(mid, Ws(final, clock));
    OtherInflightsKept(mid, final, clock, "");
    FinalKeepsActive(Heard(mid, final), final, clock);
    var last := HandleWsEvent(mid, final, clock);
    var m :| m in last.screen.messages && EndsAs(was, m, final) && EndsWith(mid.live, m.body, final);
  }

  lemma TurnActivates(st: Chat, e: Event, clock: Clock)
    requires e.UserTurn? && e.inflight != "" && !TurnIgnored(st, e.inflight) && e.inflight !in st.index.assistantOf
    ensures OnUserTurn(st, e, clock).cursor.active == Some(Local(st.nextId))
    ensures OnUserTurn(st, e, clock).conversation == st.conversation
  {
  }

  lemma FinalKeepsActive(st: Chat, e: Event, clock: Clock)
    requires e.TurnFinal? && e.inflight in st.index.assistantOf && st.cursor.inflight == Some(e.inflight)
    ensures OnFinal(st, e, clock).cursor.active == st.cursor.active
        && OnFinal(st, e, clock).conversation == st.conversation
  {
  }

  // After such a run a snapshot without an inflight changes the final bubble.
  lemma SnapshotChangesFinalBubble(st: Chat, b: Id, m: Message, e: Event, clock: Clock)
    requires Sound(st) && st.cursor.active == Some(b) && "" !in st.index.finalized && Known(b, st.nextId)
    requires m in st.screen.messages && m.id == b && m.role.Assistant? && m.streamStatus != Some(Processing)
    requires e.InflightSnapshot? && e.inflight == "" && e.conversation == st.conversation
    ensures !SameBubble(st.screen.messages, HandleWsEvent(st, e, clock).screen.messages, b)
  {
    UnnamedUpdateChangesExactly(st, e, clock, m);
  }

  lemma StartSound(conversation: string)
    ensures Sound(Start(conversation))
  {
  }

  lemma ThreeEvents(conversation: string, a: Event, b: Event, c: Event, clock: Clock)
    requires a.Transcript() && b.Transcript() && c.Transcript()
    ensures var steps := [Ws(a, clock), Ws(b, clock), Ws(c, clock)];
      && RunOk(conversation, steps)
      && Run(conversation, steps[..2]) == HandleWsEvent(HandleWsEvent(Start(conversation), a, clock), b, clock)
      && Run(conversation, steps) == HandleWsEvent(Run(conversation, steps[..2]), c, clock)
  {
    var steps := [Ws(a, clock), Ws(b, clock), Ws(c, clock)];
    assert steps[..2][..1] == [steps[0]] && [steps[0]][..0] == [] && steps[..2][1] == steps[1];
  }

  function FirstTurn(clock: Clock): Event { UserTurn("c", 1, "i", "", clock.stamp) }

  const FIRST_FINAL := TurnFinal("c", 2, "i", OkFinal, None, None, None)

  function LateSnapshot(clock: Clock): Event { InflightSnapshot("c", 3, "", "late", "", [], clock.stamp, None) }

  lemma FirstRunEnds(clock: Clock)
    ensures var last := HandleWsEvent(HandleWsEvent(Start("c"), FirstTurn(clock), clock), FIRST_FINAL, clock);
      && Settled(last, Local(0))
      && !SameBubble(last.screen.messages, HandleWsEvent(last, LateSnapshot(clock), clock).screen.messages, Local(0))
  {
    StartSound("c");
    TurnThenFinal(Start("c"), Server("c", "i", [""], [""]), FirstTurn(clock), FIRST_FINAL, clock);
    var last := HandleWsEvent(HandleWsEvent(Start("c"), FirstTurn(clock), clock), FIRST_FINAL, clock);
    var m :| m in last.screen.messages && m.id == Local(0) && m.role.Assistant?
          && m.streamStatus != Some(Processing);
    SnapshotChangesFinalBubble(last, Local(0), m, LateSnapshot(clock), clock);
  }

  // The third of three events changes a settled bubble.
  ghost predicate Reopens(steps: seq<Step>, b: Id) {
    && |steps| == 3 && RunOk("c", steps) && Settled(Run("c", steps[..2]), b)
    && !SameBubble(Run("c", steps[..2]).screen.messages, Run("c", steps).screen.messages, b)
  }

  lemma ReopensByThree(a: Event, b: Event, c: Event, clock: Clock, id: Id)
    requires a.Transcript() && b.Transcript() && c.Transcript()
    requires var last := HandleWsEvent(HandleWsEvent(Start("c"), a, clock), b, clock);
      && Settled(last, id)
      && !SameBubble(last.screen.messages, HandleWsEvent(last, c, clock).screen.messages, id)
    ensures Reopens([Ws(a, clock), Ws(b, clock), Ws(c, clock)], id)
  {
    ThreeEvents("c", a, b, c, clock);
  }

  // A reachable state with a settled bubble, and the next event changes it.
  lemma UnnamedSnapshotReopens(clock: Clock)
    ensures exists steps: seq<Step>, b: Id :: Reopens(steps, b)
  {
    FirstRunEnds(clock);
    ReopensByThree(FirstTurn(clock), FIRST_FINAL, LateSnapshot(clock), clock, Local(0));
  }
}
