// What a user turn does to the user's messages, whichever branch it takes.
module ChatTurns {
  import opened Prelude
  import opened ChatTypes
  import opened ChatModel
  import opened ChatScreen
  import opened ChatIndex
  import opened ChatFinals

  lemma {:induction false} SameTurnFound(
    ms: seq<Message>, from: int, floor: int, content: string, createdAt: Stamp, now: int, k: int)
    requires 0 <= floor <= k <= from < |ms| && SameTurn(ms[k], content, createdAt, now)
    ensures LatestSameTurn(ms, from, floor, content, createdAt, now) >= k
    decreases from
  {
    if k < from { SameTurnFound(ms, from - 1, floor, content, createdAt, now, k); }
  }

  lemma {:induction false} LastSameTurn(
    ms: seq<Message>, from: int, floor: int, content: string, createdAt: Stamp, now: int, k: int)
    requires 0 <= floor <= k <= from < |ms| && SameTurn(ms[k], content, createdAt, now)
    requires forall j | k < j <= from :: !SameTurn(ms[j], content, createdAt, now)
    ensures LatestSameTurn(ms, from, floor, content, createdAt, now) == k
    decreases from
  {
    if k < from { LastSameTurn(ms, from - 1, floor, content, createdAt, now, k); }
  }

  lemma {:induction false} LatestEchoIsLast(ms: seq<Message>, from: int, floor: int)
    requires 0 <= floor && from < |ms|
    ensures forall k | LatestEcho(ms, from, floor) < k <= from && floor <= k :: !Echo(ms[k])
    decreases from
  {
    if from >= floor && !Echo(ms[from]) { LatestEchoIsLast(ms, from - 1, floor); }
  }

  // The user's message m repeats the turn: the same text, and optimistic, or dated within
  // half an hour of the turn, or no more than a minute old.
  predicate Repeats(m: Message, content: string, createdAt: Stamp, now: int) {
    && m.role == User && m.body.text == content
    && (|| m.optimistic
        || (m.createdAt.ms.Some? && createdAt.ms.Some?
            && -1800000 <= m.createdAt.ms.value - createdAt.ms.value <= 1800000)
        || (m.createdAt.ms.Some? && now - m.createdAt.ms.value <= 60000))
  }

  // Message k is among the last eight.
  predicate Near(ms: seq<Message>, k: int) { 0 <= k < |ms| && |ms| - 8 <= k }

  // The turn gets a message of its own if and only if it has content, its bound
  // message (if any) is gone, and none of the last eight messages repeats it.
  lemma AppendsExactly(ms: seq<Message>, bound: Option<Id>, content: string, createdAt: Stamp, now: int)
    ensures PlanTurn(ms, bound, content, createdAt, now).Append? <==>
      && content != "" && (bound.Some? ==> bound.value !in Ids(ms))
      && forall k | Near(ms, k) :: !Repeats(ms[k], content, createdAt, now)
  {
    if bound.Some? { FoundIffPresent(ms, bound.value); }
    assert forall k | 0 <= k < |ms| ::
      Repeats(ms[k], content, createdAt, now) == SameTurn(ms[k], content, createdAt, now);
    if k :| Near(ms, k) && SameTurn(ms[k], content, createdAt, now) {
      SameTurnFound(ms, |ms| - 1, ScanFloor(ms), content, createdAt, now, k);
    }
  }

  lemma RepeatsIsSameTurn(m: Message, content: string, createdAt: Stamp, now: int)
    ensures Repeats(m, content, createdAt, now) == SameTurn(m, content, createdAt, now)
  {
  }

  // An optimistic message that the first scan settles on is the last same turn.
  lemma ScansAgree(s: Screen, n: nat, content: string, createdAt: Stamp, now: int, k: nat)
    requires ScreenInv(s, n) && content != ""
    requires Near(s.messages, k) && SameTurn(s.messages[k], content, createdAt, now)
    requires forall j | k < j < |s.messages| :: !SameTurn(s.messages[j], content, createdAt, now)
    ensures var e := LatestEcho(s.messages, |s.messages| - 1, ScanFloor(s.messages));
      e >= 0 && s.messages[e].body.text == content ==> e == k
  {
    var ms := s.messages;
    LatestEchoIsLast(ms, |ms| - 1, ScanFloor(ms));
    var e := LatestEcho(ms, |ms| - 1, ScanFloor(ms));
    if e >= 0 && ms[e].body.text == content {
      assert SameTurn(ms[e], content, createdAt, now) && e <= k;
      EchoIsLastRepeat(s, n, e, k);
    }
  }

  // Otherwise, without a bound message on screen, the turn settles on the last message
  // that repeats it (the two scans of the list agree): that message is confirmed, unless
  // it is confirmed and dated so already.
  lemma LastRepeatDecides(s: Screen, n: nat, bound: Option<Id>, content: string, createdAt: Stamp, now: int, k: nat)
    requires ScreenInv(s, n) && content != "" && (bound.Some? ==> bound.value !in Ids(s.messages))
    requires Near(s.messages, k) && Repeats(s.messages[k], content, createdAt, now)
    requires forall j | k < j < |s.messages| :: !Repeats(s.messages[j], content, createdAt, now)
    ensures PlanTurn(s.messages, bound, content, createdAt, now)
         == if s.messages[k].optimistic then ConfirmAt(k, true)
            else if s.messages[k].createdAt.raw == createdAt.raw then Keep else ConfirmAt(k, false)
  {
    var ms := s.messages;
    if bound.Some? { FoundIffPresent(ms, bound.value); }
    RepeatsIsSameTurn(ms[k], content, createdAt, now);
    forall j | k < j < |ms| ensures !SameTurn(ms[j], content, createdAt, now) {
      RepeatsIsSameTurn(ms[j], content, createdAt, now);
    }
    LastSameTurn(ms, |ms| - 1, ScanFloor(ms), content, createdAt, now, k);
    ScansAgree(s, n, content, createdAt, now, k);
  }

  // No confirmed message has an echo's text, so the echo is the message itself.
  lemma EchoIsLastRepeat(s: Screen, n: nat, e: nat, k: nat)
    requires ScreenInv(s, n) && e <= k < |s.messages| && Echo(s.messages[e]) && s.messages[k].role == User
    requires s.messages[e].body.text == s.messages[k].body.text != ""
    requires k > e ==> !Echo(s.messages[k])
    ensures e == k
  {
    assert s.messages[e] in s.messages && s.messages[k] in s.messages;
    assert !Confirmed(s.messages[k]);
  }

  lemma FoundIffPresent(ms: seq<Message>, id: Id)
    ensures FindId(ms, id) >= 0 <==> id in Ids(ms)
  {
    if m :| m in ms && m.id == id {
      var k :| 0 <= k < |ms| && ms[k] == m;
    }
  }

  predicate ShowsTurn(ms: seq<Message>, content: string) {
    exists m :: m in ms && m.role.User? && !m.optimistic && m.body.text == content
  }

  lemma ConfirmedShown(s: Screen, ms: seq<Message>, m: Message)
    requires m in ms && m.role.User? && !m.optimistic
    ensures ShowsTurn(Show(s, ms).messages, m.body.text)
  {
    CollapseClears(ms);
    assert m in Show(s, ms).messages;
  }

  lemma PlannedShows(s: Screen, bound: Option<Id>, content: string, createdAt: Stamp, now: int, n: nat)
    requires ScreenInv(s, n) && content != "" && (bound.Some? ==> bound.value in s.tracked)
    requires !PlanTurn(s.messages, bound, content, createdAt, now).Append?
    ensures ShowsTurn(Planned(s, PlanTurn(s.messages, bound, content, createdAt, now), content, createdAt).messages,
        content)
  {
    var ms, plan := s.messages, PlanTurn(s.messages, bound, content, createdAt, now);
    if plan.ConfirmAt? {
      var k := plan.index;
      assert ms[k] in ms;
      var m := ConfirmedMessage(ms[k], content, createdAt);
      var next := ms[k := m];
      assert next[k] == m;
      ConfirmedShown(if plan.untrack then UntrackAll(s, {ms[k].id}) else s, next, m);
    } else {
      var j := LatestSameTurn(ms, |ms| - 1, ScanFloor(ms), content, createdAt, now);
      ConfirmedShown(s, ms, ms[j]);
    }
  }

  // After a turn that is not ignored its content is shown as a confirmed message,
  // and no optimistic copy of it is left.
  lemma TurnIsShown(st: Chat, e: Event, clock: Clock)
    requires ChatScreenInv(st) && e.UserTurn? && e.conversation == st.conversation
    requires !TurnIgnored(st, e.inflight) && e.content != ""
    ensures var ms := HandleWsEvent(st, e, clock).screen.messages;
      ShowsTurn(ms, e.content) && forall m | m in ms && Echo(m) :: m.body.text != e.content
  {
    var h, i := Heard(st, e), e.inflight;
    var a := AdoptTurn(h, i);
    EnsureKeeps(a, Key(i), false, clock);
    var r := Ensure(a, Key(i), false, clock);
    var bound := if i == "" then None else Lookup(r.screen.trackedBy, i);
    ShowTurnShows(r, bound, e.content, e.createdAt, clock.now);
    OnUserTurnKeeps(h, e, clock);
    var ms := HandleWsEvent(st, e, clock).screen.messages;
    assert ms == ShowTurn(r, bound, e.content, e.createdAt, clock.now).screen.messages;
    var c :| c in ms && c.role.User? && !c.optimistic && c.body.text == e.content;
    assert Confirmed(c);
  }

  lemma ShowTurnShows(st: Chat, bound: Option<Id>, content: string, createdAt: Stamp, now: int)
    requires ChatScreenInv(st) && content != "" && (bound.Some? ==> bound.value in st.screen.tracked)
    ensures ShowsTurn(ShowTurn(st, bound, content, createdAt, now).screen.messages, content)
  {
    if PlanTurn(st.screen.messages, bound, content, createdAt, now).Append? {
      var m := UserMessage(Local(st.nextId), content, createdAt, false);
      var next := InsertTurn(st.screen.messages, m, st.cursor.active);
      assert m in next;
      ConfirmedShown(st.screen, next, m);
    } else {
      PlannedShows(st.screen, bound, content, createdAt, now, st.nextId);
    }
  }

  // A dated turn that repeats a confirmed message among the last eight adds none.
  lemma RepeatedTurnAddsNothing(ms: seq<Message>, bound: Option<Id>, content: string, createdAt: Stamp, now: int,
      k: nat)
    requires Near(ms, k) && createdAt.ms.Some?
    requires ms[k].role.User? && ms[k].body.text == content && ms[k].createdAt == createdAt
    ensures !PlanTurn(ms, bound, content, createdAt, now).Append?
  {
    AppendsExactly(ms, bound, content, createdAt, now);
    assert Repeats(ms[k], content, createdAt, now);
  }

  // ---- on screen ----

  // A bubble is made without touching any message on screen, or what is tracked.
  lemma EnsureAppends(st: Chat, key: Option<InflightId>, clock: Clock)
    requires ChatScreenInv(st)
    ensures var r := Ensure(st, key, false, clock);
      && r.screen.tracked == st.screen.tracked && r.screen.trackedBy == st.screen.trackedBy
      && r.screen.messages == if EnsureTarget(st, key, false).Some? then st.screen.messages
                              else st.screen.messages + [NewBubble(Local(st.nextId), clock.stamp)]
  {
    var ms, m := st.screen.messages, NewBubble(Local(st.nextId), clock.stamp);
    if EnsureTarget(st, key, false).None? { BubbleAppends(st.screen, m, st.nextId); }
  }

  lemma BubbleAppends(s: Screen, m: Message, n: nat)
    requires ScreenInv(s, n) && m.role == Assistant
    ensures Show(s, s.messages + [m]) == s.(messages := s.messages + [m])
  {
    var all := s.messages + [m];
    forall a | a in s.messages ensures !Doubled(s.messages, a) { DoubledMeans(s.messages, a); }
    forall x | x in all ensures !Doubled(all, x) {
      if x in s.messages { DoubledBy(s.messages, m, x); }
    }
    CollapseIdle(all);
    var t := Show(s, all);
    assert t.tracked == s.tracked && t.trackedBy == s.trackedBy;
  }

  function Confirmation(m: Message, content: string, createdAt: Stamp): Message {
    m.(body := m.body.(text := content), createdAt := createdAt, optimistic := false)
  }

  // The list a turn of a run works on, and what it does to it.
  lemma TurnWorksOn(st: Chat, e: Event, clock: Clock) returns (r: Chat)
    requires ChatScreenInv(st) && e.UserTurn? && e.conversation == st.conversation && e.inflight != ""
    requires !TurnIgnored(st, e.inflight)
    ensures ChatScreenInv(r) && r.screen.tracked == st.screen.tracked && r.screen.trackedBy == st.screen.trackedBy
    ensures r.screen.messages == st.screen.messages
         || r.screen.messages == st.screen.messages + [NewBubble(Local(st.nextId), clock.stamp)]
    ensures e.inflight !in st.index.assistantOf ==>
      && r.screen.messages == st.screen.messages + [NewBubble(Local(st.nextId), clock.stamp)]
      && r.cursor.active == Some(Local(st.nextId)) && r.nextId == st.nextId + 1
    ensures HandleWsEvent(st, e, clock).screen
         == ShowTurn(r, Lookup(st.screen.trackedBy, e.inflight), e.content, e.createdAt, clock.now).screen
  {
    var a := AdoptTurn(Heard(st, e), e.inflight);
    EnsureAppends(a, Key(e.inflight), clock);
    EnsureKeeps(a, Key(e.inflight), false, clock);
    r := Ensure(a, Key(e.inflight), false, clock);
  }

  // A turn of the run a tracked message is bound to confirms that message, in its place
  // and under its id, with the turn's text and date; it is then tracked no more, no other
  // message of the user appears, and only optimistic ones with that text go.
  lemma BoundTurnConfirms(st: Chat, e: Event, clock: Clock, m: Message)
    requires Sound(st) && e.UserTurn? && e.conversation == st.conversation && e.content != "" && e.inflight != ""
    requires !TurnIgnored(st, e.inflight) && Lookup(st.screen.trackedBy, e.inflight) == Some(m.id)
    requires m in st.screen.messages
    ensures var after, c := HandleWsEvent(st, e, clock), Confirmation(m, e.content, e.createdAt);
      && c in after.screen.messages && OnlyUntracked(st.screen, after.screen, m.id)
      && forall x: Message | x.id != m.id && x.role == User ::
           x in after.screen.messages <==> x in st.screen.messages && !Doubled([c], x)
  {
    var r := TurnWorksOn(st, e, clock);
    var k: nat :| k < |r.screen.messages| && r.screen.messages[k] == m;
    BoundPlan(r, m, k, e.content, e.createdAt, clock.now);
    SameUserMessages(st.screen.messages, r.screen.messages, NewBubble(Local(st.nextId), clock.stamp));
  }

  lemma SameUserMessages(ms: seq<Message>, after: seq<Message>, bubble: Message)
    requires (after == ms || after == ms + [bubble]) && bubble.role == Assistant
    ensures forall x: Message | x.role == User :: x in after <==> x in ms
  {
  }

  lemma BoundPlan(r: Chat, m: Message, k: nat, content: string, createdAt: Stamp, now: int)
    requires ChatScreenInv(r) && k < |r.screen.messages| && r.screen.messages[k] == m && m.id in r.screen.tracked
    requires content != ""
    ensures var after := ShowTurn(r, Some(m.id), content, createdAt, now).screen;
      var c := Confirmation(m, content, createdAt);
      && c in after.messages && OnlyUntracked(r.screen, after, m.id)
      && forall x: Message | x.id != m.id :: x in after.messages <==> x in r.screen.messages && !Doubled([c], x)
  {
    FoundIffPresent(r.screen.messages, m.id);
    assert m in r.screen.messages;
    assert PlanTurn(r.screen.messages, Some(m.id), content, createdAt, now) == ConfirmAt(k, true);
    var c := Confirmation(m, content, createdAt);
    ReplacedOne(r.screen, k, c, r.nextId);
    UntrackTracks(r.screen, m.id, r.screen.messages[k := c]);
  }

  // A turn of a run without a bubble that repeats nothing adds the user's message and
  // the bubble of the reply after it, at the end.
  lemma NewTurnAdds(st: Chat, e: Event, clock: Clock)
    requires Sound(st) && e.UserTurn? && e.conversation == st.conversation && e.content != "" && e.inflight != ""
    requires !TurnIgnored(st, e.inflight) && e.inflight !in st.index.assistantOf && e.inflight !in st.screen.trackedBy
    requires forall m | m in st.screen.messages :: !Repeats(m, e.content, e.createdAt, clock.now)
    ensures var bubble := Message(Local(st.nextId), Assistant, Body("", "", [Text("")], [], [], []), false,
        Some(Processing), clock.stamp, None, None, None, None);
      var turn := Message(Local(st.nextId + 1), User, Body(e.content, "", [], [], [], []), false, None, e.createdAt,
        None, None, None, None);
      HandleWsEvent(st, e, clock).screen.messages == st.screen.messages + [turn, bubble]
  {
    var r := TurnWorksOn(st, e, clock);
    AddedBeforeReply(r, st.screen, NewBubble(Local(st.nextId), clock.stamp), e.content, e.createdAt, clock.now);
  }

  lemma AddedBeforeReply(r: Chat, s: Screen, bubble: Message, content: string, createdAt: Stamp, now: int)
    requires ScreenInv(s, r.nextId) && r.screen.messages == s.messages + [bubble] && content != ""
    requires bubble.role == Assistant && bubble.streamStatus == Some(Processing) && r.cursor.active == Some(bubble.id)
    requires forall m | m in s.messages :: !Repeats(m, content, createdAt, now)
    ensures ShowTurn(r, None, content, createdAt, now).screen.messages
         == s.messages + [UserMessage(Local(r.nextId), content, createdAt, false), bubble]
  {
    var turn := UserMessage(Local(r.nextId), content, createdAt, false);
    AppendsExactly(r.screen.messages, None, content, createdAt, now);
    BeforeItsReply(s.messages, turn, bubble);
    NothingDoubled(s, turn, bubble, r.nextId);
    CollapseIdle(s.messages + [turn, bubble]);
  }

  lemma BeforeItsReply(ms: seq<Message>, turn: Message, bubble: Message)
    requires bubble.role == Assistant && bubble.streamStatus == Some(Processing)
    ensures InsertTurn(ms + [bubble], turn, Some(bubble.id)) == ms + [turn, bubble]
  {
  }

  lemma NothingDoubled(s: Screen, turn: Message, bubble: Message, n: nat)
    requires ScreenInv(s, n) && turn.role == User && !turn.optimistic && bubble.role == Assistant
    requires forall m | m in s.messages && m.role == User && m.optimistic :: m.body.text != turn.body.text
    ensures forall x | x in s.messages + [turn, bubble] :: !Doubled(s.messages + [turn, bubble], x)
  {
    var all := s.messages + [turn, bubble];
    forall x | x in all ensures !Doubled(all, x) {
      DoubledMeans(s.messages, x);
      DoubledMeans(all, x);
    }
  }

  lemma DropEchoesSnoc(ms: seq<Message>, m: Message, contents: set<string>)
    ensures DropEchoes(ms + [m], contents)
         == if Echo(m) && m.body.text in contents then DropEchoes(ms, contents) else DropEchoes(ms, contents) + [m]
  {
    assert (ms + [m])[..|ms|] == ms;
  }

  // The message is the bubble in which the current turn is being answered.
  predicate IsReply(st: Chat, m: Message) {
    st.cursor.active == Some(m.id) && m.role == Assistant && m.streamStatus == Some(Processing)
  }

  // A message a turn adds goes last, or just before its reply if that is last and still
  // processing.
  lemma TurnPlace(st: Chat, bound: Option<Id>, content: string, createdAt: Stamp, now: int)
    requires PlanTurn(st.screen.messages, bound, content, createdAt, now).Append?
    ensures var ms, after := st.screen.messages, ShowTurn(st, bound, content, createdAt, now).screen.messages;
      var turn := Message(Local(st.nextId), User, Body(content, "", [], [], [], []), false, None, createdAt,
        None, None, None, None);
      if ms != [] && IsReply(st, ms[|ms| - 1]) then
        |after| >= 2 && after[|after| - 1] == ms[|ms| - 1] && after[|after| - 2] == turn
      else after != [] && after[|after| - 1] == turn
  {
    var ms, turn := st.screen.messages, UserMessage(Local(st.nextId), content, createdAt, false);
    var placed := InsertTurn(ms, turn, st.cursor.active);
    if ms != [] && IsReply(st, ms[|ms| - 1]) {
      var init, reply := ms[..|ms| - 1], ms[|ms| - 1];
      assert placed == init + [turn] + [reply];
      DropEchoesSnoc(init + [turn], reply, ConfirmedContents(placed));
      DropEchoesSnoc(init, turn, ConfirmedContents(placed));
    } else {
      assert placed == ms + [turn];
      DropEchoesSnoc(ms, turn, ConfirmedContents(placed));
    }
  }
}
