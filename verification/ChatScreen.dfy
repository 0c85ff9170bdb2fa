// What every message update keeps: ids are distinct, no optimistic user message
// repeats a confirmed one, and tracking names optimistic messages on screen.
module ChatScreen {
  import opened Prelude
  import opened ChatTypes
  import opened ChatModel

  predicate Distinct(ms: seq<Message>) {
    forall i, j | 0 <= i < j < |ms| :: ms[i].id != ms[j].id
  }

  // An id that makeId() has already produced, or one from outside.
  predicate Known(id: Id, n: nat) { id.Local? ==> id.n < n }

  predicate AllKnown(ms: seq<Message>, n: nat) { forall m | m in ms :: Known(m.id, n) }

  predicate NoEcho(ms: seq<Message>) {
    forall m, c | m in ms && c in ms && Echo(m) && Confirmed(c) :: m.body.text != c.body.text
  }

  // Every message that carries a tracked id is an optimistic user message.
  predicate TrackedAreEchoes(tracked: set<Id>, ms: seq<Message>) {
    forall m | m in ms && m.id in tracked :: Echo(m)
  }

  predicate ScreenInv(s: Screen, n: nat) {
    && Distinct(s.messages) && AllKnown(s.messages, n) && NoEcho(s.messages)
    && s.tracked <= Ids(s.messages) && TrackedAreEchoes(s.tracked, s.messages)
    && forall i | i in s.trackedBy :: s.trackedBy[i] in s.tracked
  }

  // A list that may be shown next.
  predicate Showable(s: Screen, ms: seq<Message>, n: nat) {
    Distinct(ms) && AllKnown(ms, n) && TrackedAreEchoes(s.tracked, ms)
  }

  lemma SameIdSame(ms: seq<Message>, a: Message, b: Message)
    requires Distinct(ms) && a in ms && b in ms && a.id == b.id
    ensures a == b
  {
    var i :| 0 <= i < |ms| && ms[i] == a;
    var j :| 0 <= j < |ms| && ms[j] == b;
    assert i == j;
  }

  lemma {:induction false} DropEchoesMembers(ms: seq<Message>, contents: set<string>)
    ensures forall m :: m in DropEchoes(ms, contents) <==> m in ms && !(Echo(m) && m.body.text in contents)
    ensures Distinct(ms) ==> Distinct(DropEchoes(ms, contents))
  {
    if ms != [] {
      var n := |ms| - 1;
      DropEchoesMembers(ms[..n], contents);
      assert ms == ms[..n] + [ms[n]];
      if Distinct(ms) {
        assert forall m | m in ms[..n] :: m.id != ms[n].id;
        assert forall m | m in DropEchoes(ms[..n], contents) :: m in ms[..n];
      }
    }
  }

  lemma CollapseClears(ms: seq<Message>)
    ensures NoEcho(Collapse(ms))
    ensures forall m | m in Collapse(ms) :: m in ms
    ensures forall m | m in ms && !Echo(m) :: m in Collapse(ms)
    ensures Distinct(ms) ==> Distinct(Collapse(ms))
  {
    DropEchoesMembers(ms, ConfirmedContents(ms));
  }

  // An optimistic user message whose text, not empty, a confirmed user message on the
  // same list has.
  predicate Doubled(ms: seq<Message>, m: Message) {
    && m.role == User && m.optimistic && m.body.text != ""
    && exists c :: c in ms && c.role == User && !c.optimistic && c.body.text == m.body.text
  }

  lemma DoubledMeans(ms: seq<Message>, m: Message)
    ensures Doubled(ms, m) <==> Echo(m) && m.body.text in ConfirmedContents(ms)
  {
    if Doubled(ms, m) {
      var c :| c in ms && c.role == User && !c.optimistic && c.body.text == m.body.text;
      assert Confirmed(c);
    }
  }

  lemma {:induction false} DropEchoesCounts(ms: seq<Message>, contents: set<string>, m: Message)
    ensures Subsequence(DropEchoes(ms, contents), ms)
    ensures multiset(DropEchoes(ms, contents))[m]
         == if Echo(m) && m.body.text in contents then 0 else multiset(ms)[m]
  {
    if ms != [] {
      var init, last := ms[..|ms| - 1], ms[|ms| - 1];
      assert ms == init + [last];
      DropEchoesCounts(init, contents, m);
      SubsequenceSnoc(DropEchoes(init, contents), init, last);
    }
  }

  // Collapsing drops exactly the doubled messages and keeps the others in order.
  lemma CollapseMeans(ms: seq<Message>, m: Message)
    ensures Subsequence(Collapse(ms), ms)
    ensures multiset(Collapse(ms))[m] == if Doubled(ms, m) then 0 else multiset(ms)[m]
  {
    DropEchoesCounts(ms, ConfirmedContents(ms), m);
    DoubledMeans(ms, m);
  }

  // Nothing is dropped from a list without doubles.
  lemma CollapseIdle(ms: seq<Message>)
    requires forall m | m in ms :: !Doubled(ms, m)
    ensures Collapse(ms) == ms
  {
    forall m | m in ms ensures !(Echo(m) && m.body.text in ConfirmedContents(ms)) { DoubledMeans(ms, m); }
    DropNothing(ms, ConfirmedContents(ms));
  }

  lemma {:induction false} DropNothing(ms: seq<Message>, contents: set<string>)
    requires forall m | m in ms :: !(Echo(m) && m.body.text in contents)
    ensures DropEchoes(ms, contents) == ms
  {
    if ms != [] {
      DropNothing(ms[..|ms| - 1], contents);
      assert ms == ms[..|ms| - 1] + [ms[|ms| - 1]];
    }
  }

  // A message stays tracked exactly while it is on screen, and bound exactly while it is
  // tracked.
  lemma ShowTracks(s: Screen, ms: seq<Message>)
    ensures var t := Show(s, ms);
      && (forall id :: id in t.tracked <==> id in s.tracked && exists m :: m in t.messages && m.id == id)
      && (forall i :: i in t.trackedBy <==> i in s.trackedBy && s.trackedBy[i] in t.tracked)
      && forall i | i in t.trackedBy :: t.trackedBy[i] == s.trackedBy[i]
  {
  }

  // Untracking one message keeps the others tracked and bound that are shown.
  ghost predicate OnlyUntracked(s: Screen, t: Screen, gone: Id) {
    && (forall id :: id in t.tracked <==> id != gone && id in s.tracked && exists m :: m in t.messages && m.id == id)
    && (forall i :: i in t.trackedBy <==> i in s.trackedBy && s.trackedBy[i] in t.tracked)
    && forall i | i in t.trackedBy :: t.trackedBy[i] == s.trackedBy[i]
  }

  lemma UntrackTracks(s: Screen, gone: Id, ms: seq<Message>)
    ensures OnlyUntracked(s, Show(UntrackAll(s, {gone}), ms), gone)
  {
    ShowTracks(UntrackAll(s, {gone}), ms);
  }

  // Showing what is on screen again changes nothing.
  lemma ShowIdle(s: Screen, n: nat)
    requires ScreenInv(s, n)
    ensures Show(s, s.messages) == s
  {
    forall m | m in s.messages ensures !Doubled(s.messages, m) { DoubledMeans(s.messages, m); }
    CollapseIdle(s.messages);
    assert Show(s, s.messages).tracked == s.tracked && Show(s, s.messages).trackedBy == s.trackedBy;
  }

  // Whatever is shown, the screen's invariant holds afterwards.
  lemma ShowKeeps(s: Screen, ms: seq<Message>, n: nat)
    requires Showable(s, ms, n)
    ensures ScreenInv(Show(s, ms), n)
    ensures Show(s, ms).tracked <= s.tracked
  {
    CollapseClears(ms);
  }

  lemma UntrackKeeps(s: Screen, ids: set<Id>, n: nat)
    requires ScreenInv(s, n)
    ensures ScreenInv(UntrackAll(s, ids), n) && UntrackAll(s, ids).tracked == s.tracked - ids
  {
  }

  // ---- adding one message, and confirming one ----

  // The message is last, unless a confirmed one says the same already; and of the others
  // only optimistic ones go that it confirms.
  ghost predicate Added(before: seq<Message>, after: seq<Message>, m: Message) {
    && (m in after <==> !Doubled(before, m)) && (m in after ==> after[|after| - 1] == m)
    && forall x: Message | x.id != m.id :: x in after <==> x in before && !Doubled([m], x)
  }

  lemma AppendedLast(ms: seq<Message>, m: Message)
    requires !Doubled(ms + [m], m)
    ensures Collapse(ms + [m]) != [] && Collapse(ms + [m])[|Collapse(ms + [m])| - 1] == m
  {
    DoubledMeans(ms + [m], m);
    assert (ms + [m])[..|ms|] == ms;
  }

  lemma DoubledBy(ms: seq<Message>, m: Message, x: Message)
    requires forall a | a in ms :: !Doubled(ms, a)
    requires x in ms
    ensures Doubled(ms + [m], x) <==> Doubled([m], x)
  {
    if Doubled(ms + [m], x) {
      var c :| c in ms + [m] && c.role == User && !c.optimistic && c.body.text == x.body.text;
      assert c in ms || c == m;
    }
    if Doubled([m], x) { assert m in ms + [m]; }
  }

  lemma AppendAdds(s: Screen, m: Message, n: nat)
    requires ScreenInv(s, n) && m.id !in Ids(s.messages)
    ensures Added(s.messages, Collapse(s.messages + [m]), m)
  {
    var ms, after := s.messages, Collapse(s.messages + [m]);
    forall a | a in ms ensures !Doubled(ms, a) { DoubledMeans(ms, a); }
    assert Doubled(ms + [m], m) <==> Doubled(ms, m);
    CollapseMeans(ms + [m], m);
    if !Doubled(ms + [m], m) { AppendedLast(ms, m); }
    forall x: Message | x.id != m.id ensures x in after <==> x in ms && !Doubled([m], x) {
      CollapseMeans(ms + [m], x);
      if x in ms { DoubledBy(ms, m, x); }
    }
  }

  // Confirming the message at k in place.
  lemma ReplacedOne(s: Screen, k: nat, c: Message, n: nat)
    requires ScreenInv(s, n) && k < |s.messages| && c.id == s.messages[k].id && !c.optimistic
    requires s.messages[k].role == User && c.role == User
    requires s.messages[k].optimistic || s.messages[k].body.text == c.body.text
    ensures var ms, after := s.messages, Collapse(s.messages[k := c]);
      c in after && forall x: Message | x.id != c.id :: x in after <==> x in ms && !Doubled([c], x)
  {
    var ms, r := s.messages, s.messages[k := c];
    forall a | a in ms ensures !Doubled(ms, a) { DoubledMeans(ms, a); }
    assert r[k] == c && c in r;
    CollapseMeans(r, c);
    forall x: Message | x.id != c.id ensures x in Collapse(r) <==> x in ms && !Doubled([c], x) {
      CollapseMeans(r, x);
      SameElsewhere(ms, k, c, x);
      if x in ms { DoubledInstead(ms, k, c, x); }
    }
  }

  lemma SameElsewhere(ms: seq<Message>, k: nat, c: Message, x: Message)
    requires k < |ms| && ms[k].id == c.id && x.id != c.id
    ensures x in ms[k := c] <==> x in ms
  {
    if x in ms {
      var j :| 0 <= j < |ms| && ms[j] == x;
      assert ms[k := c][j] == x;
    }
  }

  lemma OldOrNew(ms: seq<Message>, k: nat, c: Message, d: Message)
    requires k < |ms| && d in ms[k := c]
    ensures d == c || d in ms
  {
  }

  lemma DoubledInstead(ms: seq<Message>, k: nat, c: Message, x: Message)
    requires k < |ms| && x in ms && c in ms[k := c] && !c.optimistic && c.role == User
    requires forall a | a in ms :: !Doubled(ms, a)
    requires ms[k].optimistic || ms[k].body.text == c.body.text
    ensures Doubled(ms[k := c], x) <==> Doubled([c], x)
  {
    var r := ms[k := c];
    if Doubled(r, x) {
      var d :| d in r && d.role == User && !d.optimistic && d.body.text == x.body.text;
      OldOrNew(ms, k, c, d);
    }
    if Doubled([c], x) { assert c in r; }
  }

  // ---- lists that may be shown ----

  lemma EditShowable(s: Screen, id: Id, p: Patch, n: nat)
    requires ScreenInv(s, n)
    ensures Showable(s, Edit(s.messages, id, p), n)
  {
    var r := Edit(s.messages, id, p);
    forall m | m in r ensures Known(m.id, n) && (m.id in s.tracked ==> Echo(m)) {
      var k :| 0 <= k < |r| && r[k] == m;
      assert s.messages[k] in s.messages;
    }
  }

  lemma AppendShowable(s: Screen, m: Message, n: nat)
    requires ScreenInv(s, n) && Known(m.id, n) && m.id !in Ids(s.messages)
    ensures Showable(s, s.messages + [m], n)
  {
    assert forall k | 0 <= k < |s.messages| :: s.messages[k].id in Ids(s.messages);
  }

  lemma InsertShowable(s: Screen, m: Message, assistant: Option<Id>, n: nat)
    requires ScreenInv(s, n) && Known(m.id, n) && m.id !in Ids(s.messages)
    ensures Showable(s, InsertTurn(s.messages, m, assistant), n)
  {
    assert forall k | 0 <= k < |s.messages| :: s.messages[k].id in Ids(s.messages);
    AppendShowable(s, m, n);
    var ms := s.messages;
    if ms != [] {
      assert forall x :: x in ms[..|ms| - 1] + [m, ms[|ms| - 1]] ==> x in ms || x == m;
    }
  }

  lemma ConfirmShowable(s: Screen, k: nat, content: string, createdAt: Stamp, n: nat)
    requires ScreenInv(s, n) && k < |s.messages| && s.messages[k].id !in s.tracked
    ensures Showable(s, s.messages[k := ConfirmedMessage(s.messages[k], content, createdAt)], n)
  {
    var ms := s.messages;
    var r := ms[k := ConfirmedMessage(ms[k], content, createdAt)];
    assert ms[k] in ms;
    forall m | m in r ensures Known(m.id, n) && (m.id in s.tracked ==> Echo(m)) {
      var j :| 0 <= j < |r| && r[j] == m;
      assert ms[j] in ms;
    }
  }

  lemma UnoptimisticShowable(s: Screen, id: Id, n: nat)
    requires ScreenInv(s, n) && id !in s.tracked
    ensures Showable(s, Unoptimistic(s.messages, id), n)
  {
    var r := Unoptimistic(s.messages, id);
    forall m | m in r ensures Known(m.id, n) && (m.id in s.tracked ==> Echo(m)) {
      var k :| 0 <= k < |r| && r[k] == m;
      assert s.messages[k] in s.messages;
    }
  }

  lemma {:induction false} WithoutMembers(ms: seq<Message>, id: Id)
    ensures forall m :: m in Without(ms, id) <==> m in ms && m.id != id
    ensures Distinct(ms) ==> Distinct(Without(ms, id))
  {
    if ms != [] {
      var n := |ms| - 1;
      WithoutMembers(ms[..n], id);
      assert ms == ms[..n] + [ms[n]];
      if Distinct(ms) {
        assert forall m | m in ms[..n] :: m.id != ms[n].id;
        assert forall m | m in Without(ms[..n], id) :: m in ms[..n];
      }
    }
  }

  // ---- operations ----

  predicate ChatScreenInv(st: Chat) { ScreenInv(st.screen, st.nextId) }

  lemma KnownLater(s: Screen, n: nat, n': nat)
    requires ScreenInv(s, n) && n <= n'
    ensures ScreenInv(s, n')
  {
  }

  lemma SyncKeeps(st: Chat, id: Id, p: Patch)
    requires ChatScreenInv(st)
    ensures ChatScreenInv(Sync(st, id, p)) && Sync(st, id, p).nextId == st.nextId
  {
    EditShowable(st.screen, id, p, st.nextId);
    ShowKeeps(st.screen, Edit(st.screen.messages, id, p), st.nextId);
  }

  // Appending a message whose id has just been made.
  lemma AppendNewKeeps(s: Screen, m: Message, n: nat)
    requires ScreenInv(s, n) && m.id == Local(n)
    ensures ScreenInv(Show(s, s.messages + [m]), n + 1)
  {
    KnownLater(s, n, n + 1);
    assert m.id !in Ids(s.messages);
    AppendShowable(s, m, n + 1);
    ShowKeeps(s, s.messages + [m], n + 1);
  }

  lemma EnsureKeeps(st: Chat, key: Option<InflightId>, forceNew: bool, clock: Clock)
    requires ChatScreenInv(st)
    ensures ChatScreenInv(Ensure(st, key, forceNew, clock)) && Ensure(st, key, forceNew, clock).nextId >= st.nextId
  {
    AppendNewKeeps(st.screen, NewBubble(Local(st.nextId), clock.stamp), st.nextId);
  }

  lemma OnIncrementalKeeps(st: Chat, e: Event, clock: Clock)
    requires ChatScreenInv(st) && Incremental(e)
    ensures ChatScreenInv(OnIncremental(st, e, clock))
  {
    if e.inflight !in st.index.finalized && !Mismatch(st, e.inflight) {
      EnsureKeeps(st, Key(e.inflight), false, clock);
      var r := Resolve(st, e.inflight, clock);
      var n := OnIncremental(st, e, clock).nextId;
      KnownLater(r.screen, r.nextId, n);
      var p := NO_PATCH.(body := Some(Advance(r.live, e, Local(r.nextId))), streamStatus := Some(Processing));
      EditShowable(r.screen, ResolvedId(st, e.inflight), p, n);
      ShowKeeps(r.screen, Edit(r.screen.messages, ResolvedId(st, e.inflight), p), n);
    }
  }

  lemma {:induction false} ApplyToolsCounts(live: Body, events: seq<ToolEvent>, next: nat)
    ensures ApplyTools(live, events, next).1 >= next
  {
    if events != [] { ApplyToolsCounts(live, events[..|events| - 1], next); }
  }

  lemma AdoptSnapshotKeeps(
    st: Chat, i: InflightId, text: string, think: string, tools: seq<ToolEvent>, startedAt: Stamp,
    command: Option<Meta>, clock: Clock)
    requires ChatScreenInv(st)
    ensures ChatScreenInv(AdoptSnapshot(st, i, text, think, tools, startedAt, command, clock))
  {
    EnsureKeeps(st, Key(i), false, clock);
    var r := Ensure(st, Key(i), false, clock);
    ApplyToolsCounts(SnapshotBody(text, think), tools, r.nextId);
    var applied := ApplyTools(SnapshotBody(text, think), tools, r.nextId);
    KnownLater(r.screen, r.nextId, applied.1);
    var p := StartedPatch(applied.0, startedAt, command);
    EditShowable(r.screen, EnsuredId(st, Key(i), false), p, applied.1);
    ShowKeeps(r.screen, Edit(r.screen.messages, EnsuredId(st, Key(i), false), p), applied.1);
  }

  lemma ShowTurnKeeps(st: Chat, bound: Option<Id>, content: string, createdAt: Stamp, now: int)
    requires ChatScreenInv(st)
    ensures ChatScreenInv(ShowTurn(st, bound, content, createdAt, now))
  {
    var s, ms, n := st.screen, st.screen.messages, st.nextId;
    match PlanTurn(ms, bound, content, createdAt, now) {
      case Keep => ShowKeeps(s, ms, n);
      case ConfirmAt(k, untrack) =>
        assert ms[k] in ms;
        UntrackKeeps(s, {ms[k].id}, n);
        var t := if untrack then UntrackAll(s, {ms[k].id}) else s;
        ConfirmShowable(t, k, content, createdAt, n);
        ShowKeeps(t, ms[k := ConfirmedMessage(ms[k], content, createdAt)], n);
      case Append =>
        KnownLater(s, n, n + 1);
        var m := UserMessage(Local(n), content, createdAt, false);
        assert m.id !in Ids(ms);
        InsertShowable(s, m, st.cursor.active, n + 1);
        ShowKeeps(s, InsertTurn(ms, m, st.cursor.active), n + 1);
    }
  }

  lemma OnUserTurnKeeps(st: Chat, e: Event, clock: Clock)
    requires ChatScreenInv(st) && e.UserTurn?
    ensures ChatScreenInv(OnUserTurn(st, e, clock))
  {
    if !TurnIgnored(st, e.inflight) {
      var a := AdoptTurn(st, e.inflight);
      EnsureKeeps(a, Key(e.inflight), false, clock);
      var r := Ensure(a, Key(e.inflight), false, clock);
      ShowTurnKeeps(r, if e.inflight == "" then None else Lookup(r.screen.trackedBy, e.inflight), e.content,
          e.createdAt, clock.now);
    }
  }

  lemma FinishCurrentKeeps(st: Chat, e: Event, clock: Clock)
    requires ChatScreenInv(st) && e.TurnFinal?
    ensures ChatScreenInv(FinishCurrent(st, e, clock))
  {
    var i, x := e.inflight, st.(index := Finalize(st.index, e.inflight));
    EnsureKeeps(x, Key(i), false, clock);
    var r := if i in st.index.assistantOf then x else Ensure(x, Key(i), false, clock);
    var p := FinalPatch(e).(body := Some(FinalBody(e, r.live)));
    EditShowable(r.screen, ResolvedId(st, i), p, r.nextId);
    ShowKeeps(r.screen, Edit(r.screen.messages, ResolvedId(st, i), p), r.nextId);
  }

  lemma OnFinalKeeps(st: Chat, e: Event, clock: Clock)
    requires ChatScreenInv(st) && e.TurnFinal?
    ensures ChatScreenInv(OnFinal(st, e, clock))
  {
    FinishCurrentKeeps(st, e, clock);
    if OutOfBand(st, e.inflight) && ExistingBubble(st, e.inflight).Some? {
      SyncKeeps(st.(index := Finalize(st.index, e.inflight)), ExistingBubble(st, e.inflight).value, FinalPatch(e));
    }
  }

  lemma RemovePendingKeeps(st: Chat, target: Option<InflightId>)
    requires ChatScreenInv(st)
    ensures ChatScreenInv(RemovePending(st, target))
  {
    var id := PendingTarget(st, target);
    if id.Some? {
      WithoutMembers(st.screen.messages, id.value);
      ShowKeeps(st.screen, Without(st.screen.messages, id.value), st.nextId);
      ShowKeeps(st.screen, st.screen.messages, st.nextId);
    }
  }

  lemma HandleWsEventKeeps(st: Chat, e: Event, clock: Clock)
    requires ChatScreenInv(st)
    ensures ChatScreenInv(HandleWsEvent(st, e, clock))
  {
    match e {
      case CancelAck(_, _, _) => RemovePendingKeeps(st, st.cursor.stopInflight);
      case UserTurn(_, _, _, _, _) => OnUserTurnKeeps(Heard(st, e), e, clock);
      case InflightSnapshot(_, _, i, text, think, tools, startedAt, command) =>
        AdoptSnapshotKeeps(Heard(st, e), i, text, think, tools, startedAt, command, clock);
      case TurnFinal(_, _, _, _, _, _, _) => OnFinalKeeps(Heard(st, e), e, clock);
      case _ => OnIncrementalKeeps(Heard(st, e), e, clock);
    }
  }

  lemma TouchKeeps(st: Chat)
    requires ChatScreenInv(st)
    ensures ChatScreenInv(Touch(st)) && Touch(st).nextId == st.nextId
  {
    ShowKeeps(st.screen, st.screen.messages, st.nextId);
  }

  lemma ForgetKeeps(st: Chat, conversation: string)
    requires ChatScreenInv(st)
    ensures ChatScreenInv(Forget(st, conversation))
  {
  }

  lemma ClearKeeps(st: Chat)
    requires ChatScreenInv(st)
    ensures ChatScreenInv(st.(screen := Show(st.screen, [])))
  {
    ShowKeeps(st.screen, [], st.nextId);
  }

  lemma AppendOptimisticKeeps(st: Chat, content: string, clock: Clock)
    requires ChatScreenInv(st)
    ensures ChatScreenInv(AppendOptimistic(st, content, clock))
  {
    var s, n := st.screen, st.nextId;
    var m := UserMessage(Local(n), content, clock.stamp, true);
    var t := s.(tracked := s.tracked + {m.id});
    assert m.id !in Ids(s.messages);
    AppendShowable(s, m, n + 1);
    forall x | x in s.messages + [m] && x.id in t.tracked ensures Echo(x) {
      assert x in s.messages ==> x.id in Ids(s.messages);
    }
    ShowKeeps(t, s.messages + [m], n + 1);
  }

  lemma SendBeginKeeps(st: Chat, text: string, ready: bool, i: InflightId, clock: Clock)
    requires ChatScreenInv(st)
    ensures ChatScreenInv(SendBegin(st, text, ready, i, clock))
  {
    if !Blank(text) && !st.cursor.status.Sending? && ready {
      TouchKeeps(st);
      var t := ResetInflight(Touch(st));
      var m := UserMessage(Local(t.nextId), text, clock.stamp, false);
      AppendNewKeeps(t.screen, m, t.nextId);
      var u := SendPrepared(st, text, i, clock);
      EnsureKeeps(u, Key(i), true, clock);
      var r := Ensure(u, Key(i), true, clock);
      SyncKeeps(r, EnsuredId(u, Key(i), true), NO_PATCH.(body := Some(r.live), streamStatus := Some(Processing)));
    }
  }

  lemma SendFailedKeeps(st: Chat, error: string, refused: bool)
    requires ChatScreenInv(st)
    ensures ChatScreenInv(SendFailed(st, error, refused))
  {
    var bubble := ErrorBubble(Local(st.nextId), error);
    AppendNewKeeps(st.screen, bubble, st.nextId);
    var t := ErrorShown(st, error, refused);
    if t.cursor.active.Some? {
      SyncKeeps(t, t.cursor.active.value, NO_PATCH.(body := Some(t.live), streamStatus := Some(Failed)));
    }
  }

  lemma FinalizeOptimisticKeeps(st: Chat, id: Id)
    requires ChatScreenInv(st)
    ensures ChatScreenInv(FinalizeOptimistic(st, id))
  {
    UntrackKeeps(st.screen, {id}, st.nextId);
    var t := UntrackAll(st.screen, {id});
    UnoptimisticShowable(t, id, st.nextId);
    ShowKeeps(t, Unoptimistic(t.messages, id), st.nextId);
  }

  // ---- hydration ----

  // Ids of entries have been made already, or come from outside.
  predicate EntriesKnown(st: Chat, history: seq<Entry>) {
    forall e | e in history :: Known(e.message.id, st.nextId)
  }

  predicate FirstOfId(ms: seq<Message>, k: nat) {
    k < |ms| && forall j | 0 <= j < k :: ms[j].id != ms[k].id
  }

  // Every unmatched entry that is the first of its id, where the id stays tracked, is
  // an optimistic user message.
  predicate TracksEchoes(st: Chat, history: seq<Entry>) {
    var g := MergeFor(st, history);
    forall k | 0 <= k < |g.kept| && FirstOfId(g.kept, k) && g.kept[k].id in st.screen.tracked - g.untracked ::
      Echo(g.kept[k])
  }

  predicate MergeOk(g: Merge, candidates: seq<Message>) {
    && (forall id | id in g.replacements :: g.replacements[id].id == id && exists m :: m in candidates && m.id == id)
    && (forall m | m in candidates && m.optimistic && m.id in g.replacements :: m.id in g.untracked)
  }

  lemma {:induction false} MergeHistoryOk(candidates: seq<Message>, history: seq<Entry>)
    requires Distinct(candidates)
    ensures MergeOk(MergeHistory(candidates, history), candidates)
    ensures forall m | m in MergeHistory(candidates, history).kept :: exists e :: e in history && e.message == m
  {
    if history != [] {
      var n := |history| - 1;
      MergeHistoryOk(candidates, history[..n]);
      assert history == history[..n] + [history[n]];
      MergeOneOk(MergeHistory(candidates, history[..n]), candidates, history[n]);
      forall m | m in MergeHistory(candidates, history).kept ensures exists e :: e in history && e.message == m {
        if m in MergeHistory(candidates, history[..n]).kept {
          var e :| e in history[..n] && e.message == m;
          assert e in history;
        } else {
          assert history[n] in history && history[n].message == m;
        }
      }
    }
  }

  lemma MergeOneOk(acc: Merge, candidates: seq<Message>, e: Entry)
    requires Distinct(candidates) && MergeOk(acc, candidates)
    ensures MergeOk(MergeOne(acc, candidates, e), candidates)
  {
    var found := FirstMatch(candidates, e.message);
    if found.Some? {
      forall m | m in candidates && m.id == found.value.id ensures m == found.value {
        SameIdSame(candidates, m, found.value);
      }
    }
  }

  lemma {:induction false} DedupeDistinct(ms: seq<Message>)
    ensures Distinct(Dedupe(ms)) && Ids(Dedupe(ms)) == Ids(ms)
    ensures forall m | m in Dedupe(ms) :: m in ms
  {
    if ms != [] {
      var n := |ms| - 1;
      DedupeDistinct(ms[..n]);
      assert ms == ms[..n] + [ms[n]];
      assert Ids(ms) == Ids(ms[..n]) + {ms[n].id};
      var init := Dedupe(ms[..n]);
      assert forall k | 0 <= k < |init| :: init[k].id in Ids(init);
      if ms[n].id !in Ids(ms[..n]) {
        assert Ids(init + [ms[n]]) == Ids(init) + {ms[n].id};
      }
    }
  }

  // Exactly the first message of each id is kept.
  lemma {:induction false} DedupeFirsts(ms: seq<Message>, k: nat)
    requires FirstOfId(ms, k)
    ensures ms[k] in Dedupe(ms)
  {
    var n := |ms| - 1;
    if k < n { DedupeFirsts(ms[..n], k); }
  }

  lemma {:induction false} DedupedIsFirst(ms: seq<Message>, m: Message) returns (k: nat)
    requires m in Dedupe(ms)
    ensures FirstOfId(ms, k) && ms[k] == m
  {
    var n := |ms| - 1;
    if m in Dedupe(ms[..n]) {
      k := DedupedIsFirst(ms[..n], m);
      assert forall j | 0 <= j <= k :: ms[..n][j] == ms[j];
    } else {
      k := n;
      forall j | 0 <= j < n ensures ms[j].id != ms[n].id { assert ms[..n][j] in ms[..n]; }
    }
  }

  // What the merge keeps comes from the history.
  lemma KeptFromHistory(st: Chat, history: seq<Entry>)
    requires ChatScreenInv(st)
    ensures forall m | m in MergeFor(st, history).kept :: exists e :: e in history && e.message == m
  {
    var ms, g := st.screen.messages, MergeFor(st, history);
    MergeHistoryOk(SliceFromEnd(ms, 6), history);
    forall m | m in g.kept ensures exists e :: e in history && e.message == m {
      if !(HasLive(st) && ms != []) {
        var k :| 0 <= k < |history| && history[k].message == m;
        assert history[k] in history;
      }
    }
  }

  lemma ReplacedOk(s: Screen, n: nat, g: Merge, candidates: seq<Message>)
    requires ScreenInv(s, n) && MergeOk(g, candidates) && forall m | m in candidates :: m in s.messages
    ensures AllKnown(Replace(s.messages, g.replacements), n)
    ensures TrackedAreEchoes(s.tracked - g.untracked, Replace(s.messages, g.replacements))
  {
    var ms := s.messages;
    var r := Replace(ms, g.replacements);
    forall m | m in r ensures Known(m.id, n) && (m.id in s.tracked - g.untracked ==> Echo(m)) {
      var k :| 0 <= k < |r| && r[k] == m;
      assert ms[k] in ms;
      if ms[k].id in g.replacements {
        var c :| c in candidates && c.id == ms[k].id;
        SameIdSame(ms, c, ms[k]);
      }
    }
  }

  lemma KnownAfterMerge(st: Chat, history: seq<Entry>)
    requires ChatScreenInv(st) && EntriesKnown(st, history)
    ensures var g := MergeFor(st, history);
      && AllKnown(g.kept + Replace(st.screen.messages, g.replacements), st.nextId)
      && TrackedAreEchoes(st.screen.tracked - g.untracked, Replace(st.screen.messages, g.replacements))
  {
    var candidates := SliceFromEnd(st.screen.messages, 6);
    assert Distinct(candidates) && forall m | m in candidates :: m in st.screen.messages;
    MergeHistoryOk(candidates, history);
    KeptFromHistory(st, history);
    ReplacedOk(st.screen, st.nextId, MergeFor(st, history), candidates);
  }

  // What comes first of its id in "kept" decides, then what is on screen.
  lemma DedupedEchoes(kept: seq<Message>, shown: seq<Message>, tracked: set<Id>)
    requires TrackedAreEchoes(tracked, shown)
    requires forall k | 0 <= k < |kept| && FirstOfId(kept, k) && kept[k].id in tracked :: Echo(kept[k])
    ensures TrackedAreEchoes(tracked, Dedupe(kept + shown))
  {
    forall m | m in Dedupe(kept + shown) && m.id in tracked ensures Echo(m) {
      var k := DedupedIsFirst(kept + shown, m);
      if k < |kept| {
        assert forall j | 0 <= j < k :: (kept + shown)[j] == kept[j];
        assert FirstOfId(kept, k);
      } else {
        assert m == shown[k - |kept|];
      }
    }
  }

  lemma HydrateHistoryKeeps(st: Chat, conversation: string, history: seq<Entry>, mode: Mode)
    requires ChatScreenInv(st) && EntriesKnown(st, history) && TracksEchoes(st, history)
    ensures ChatScreenInv(HydrateHistory(st, conversation, history, mode))
  {
    var g := MergeFor(st, history);
    var s := UntrackAll(st.screen, g.untracked);
    var shown := Replace(st.screen.messages, g.replacements);
    KnownAfterMerge(st, history);
    DedupedEchoes(g.kept, shown, s.tracked);
    assert forall m | m in g.kept :: m in g.kept + shown;
    DedupeDistinct(g.kept + shown);
    DedupeDistinct(g.kept);
    ShowKeeps(s, MergedMessages(st, history, mode), st.nextId);
  }

  // A first entry that breaks the condition is shown under a tracked id.
  lemma ForeignEntryShown(st: Chat, conversation: string, history: seq<Entry>, mode: Mode, k: nat)
    requires ChatScreenInv(st)
    requires var g := MergeFor(st, history);
      FirstOfId(g.kept, k) && g.kept[k].id in st.screen.tracked - g.untracked && !Echo(g.kept[k])
    ensures !ChatScreenInv(HydrateHistory(st, conversation, history, mode))
  {
    var g := MergeFor(st, history);
    var m, all := g.kept[k], g.kept + Replace(st.screen.messages, g.replacements);
    assert forall j | 0 <= j < k :: all[j] == g.kept[j];
    assert all[k] == m && FirstOfId(all, k);
    DedupeFirsts(all, k);
    var merged := MergedMessages(st, history, mode);
    assert HasLive(st);
    assert merged == Dedupe(all);
    CollapseClears(merged);
    var after := Show(UntrackAll(st.screen, g.untracked), merged);
    assert m in after.messages && m.id in after.tracked;
    assert HydrateHistory(st, conversation, history, mode).screen == after;
  }

  // Hydration keeps the invariant if and only if the history meets the condition.
  lemma HydrationIsExact(st: Chat, conversation: string, history: seq<Entry>, mode: Mode)
    requires ChatScreenInv(st) && EntriesKnown(st, history)
    ensures ChatScreenInv(HydrateHistory(st, conversation, history, mode)) <==> TracksEchoes(st, history)
  {
    var g := MergeFor(st, history);
    if TracksEchoes(st, history) {
      HydrateHistoryKeeps(st, conversation, history, mode);
    } else {
      var k: nat :| k < |g.kept| && FirstOfId(g.kept, k) && g.kept[k].id in st.screen.tracked - g.untracked
                 && !Echo(g.kept[k]);
      ForeignEntryShown(st, conversation, history, mode, k);
    }
  }

  // ---- every run ----

  // Ids are made once: a message added by a caller has a new one.
  predicate StepFresh(st: Chat, step: Step) {
    match step
    case AddLocal(m) => Known(m.id, st.nextId) && m.id !in Ids(st.screen.messages)
    case History(_, history, _) => EntriesKnown(st, history)
    case _ => true
  }

  predicate StepOk(st: Chat, step: Step) {
    StepFresh(st, step) && (step.History? ==> TracksEchoes(st, step.history))
  }

  lemma StepKeepsScreen(st: Chat, step: Step)
    requires ChatScreenInv(st) && StepOk(st, step)
    ensures ChatScreenInv(Next(st, step))
  {
    match step {
      case Ws(e, clock) => HandleWsEventKeeps(st, e, clock);
      case Begin(text, ready, i, clock) => SendBeginKeeps(st, text, ready, i, clock);
      case Rejected(error, refused) => SendFailedKeeps(st, error, refused);
      case History(conversation, history, mode) => HydrateHistoryKeeps(st, conversation, history, mode);
      case Restore(conversation, s, clock) => RestoreKeeps(st, conversation, s, clock);
      case _ => LocalStepKeepsScreen(st, step);
    }
  }

  lemma LocalStepKeepsScreen(st: Chat, step: Step)
    requires ChatScreenInv(st) && StepOk(st, step)
    requires !step.Ws? && !step.Begin? && !step.Rejected? && !step.History? && !step.Restore?
    ensures ChatScreenInv(Next(st, step))
  {
    match step {
      case Stop(requestId) => TouchKeeps(st);
      case Reset(conversation) =>
        ClearKeeps(st);
        ForgetKeeps(st.(screen := Show(st.screen, [])), conversation);
      case Switch(conversation, clearMessages) =>
        TouchKeeps(st);
        ClearKeeps(Touch(st));
      case Effect =>
      case AddLocal(m) =>
        AppendShowable(st.screen, m, st.nextId);
        ShowKeeps(st.screen, st.screen.messages + [m], st.nextId);
      case AddOptimistic(content, clock) => AppendOptimisticKeeps(st, content, clock);
      case Bind(id, i) =>
      case Settle(id) => FinalizeOptimisticKeeps(st, id);
      case Accepted(i, conversation) =>
    }
  }

  lemma RestoreKeeps(st: Chat, conversation: string, s: Snapshot, clock: Clock)
    requires ChatScreenInv(st)
    ensures ChatScreenInv(HydrateSnapshot(st, conversation, s, clock))
  {
    AdoptSnapshotKeeps(Rebase(st, conversation, s.seqNo), s.inflight, s.text, s.think, s.toolEvents, s.startedAt,
        s.command, clock);
  }

  predicate RunOk(conversation: string, steps: seq<Step>) {
    forall k | 0 <= k < |steps| :: StepOk(Run(conversation, steps[..k]), steps[k])
  }

  lemma RunOkPrefix(conversation: string, steps: seq<Step>, n: nat)
    requires RunOk(conversation, steps) && n <= |steps|
    ensures RunOk(conversation, steps[..n])
  {
    forall k | 0 <= k < n ensures StepOk(Run(conversation, steps[..n][..k]), steps[..n][k]) {
      assert steps[..n][..k] == steps[..k];
    }
  }

  // In every reachable state ids are distinct, no optimistic user message repeats
  // a confirmed one's content, and tracked ids (the targets of the inflight map
  // among them) name optimistic user messages that are on screen.
  lemma {:induction false} RunKeepsScreen(conversation: string, steps: seq<Step>)
    requires RunOk(conversation, steps)
    ensures ChatScreenInv(Run(conversation, steps))
  {
    if steps != [] {
      var n := |steps| - 1;
      RunOkPrefix(conversation, steps, n);
      RunKeepsScreen(conversation, steps[..n]);
      StepKeepsScreen(Run(conversation, steps[..n]), steps[n]);
    }
  }

  predicate RunFresh(conversation: string, steps: seq<Step>) {
    forall k | 0 <= k < |steps| :: StepFresh(Run(conversation, steps[..k]), steps[k])
  }

  // A run of fresh ids keeps the invariant throughout if and only if every hydration
  // in it meets the condition on tracked ids.
  lemma RunScreenIsExact(conversation: string, steps: seq<Step>)
    requires RunFresh(conversation, steps)
    ensures (forall k | 0 <= k <= |steps| :: ChatScreenInv(Run(conversation, steps[..k])))
       <==> RunOk(conversation, steps)
  {
    if RunOk(conversation, steps) {
      forall k | 0 <= k <= |steps| ensures ChatScreenInv(Run(conversation, steps[..k])) {
        RunOkPrefix(conversation, steps, k);
        RunKeepsScreen(conversation, steps[..k]);
      }
    } else {
      var k :| 0 <= k < |steps| && !StepOk(Run(conversation, steps[..k]), steps[k]);
      if ChatScreenInv(Run(conversation, steps[..k])) { BadHydration(conversation, steps, k); }
    }
  }

  lemma BadHydration(conversation: string, steps: seq<Step>, k: nat)
    requires k < |steps| && StepFresh(Run(conversation, steps[..k]), steps[k])
    requires !StepOk(Run(conversation, steps[..k]), steps[k]) && ChatScreenInv(Run(conversation, steps[..k]))
    ensures !ChatScreenInv(Run(conversation, steps[..k + 1]))
  {
    assert steps[..k + 1][..k] == steps[..k];
    BadStep(Run(conversation, steps[..k]), steps[k]);
  }

  lemma BadStep(st: Chat, step: Step)
    requires ChatScreenInv(st) && StepFresh(st, step) && !StepOk(st, step)
    ensures !ChatScreenInv(Next(st, step))
  {
    HydrationIsExact(st, step.conversation, step.history, step.mode);
  }

  // The condition can fail: a user message is sent optimistically, and history then
  // brings another confirmed message under its id, which stays tracked.
  lemma ForeignEntryBreaksTracking(clock: Clock)
    ensures exists steps: seq<Step> :: RunFresh("c", steps) && !ChatScreenInv(Run("c", steps))
  {
    var add := AddOptimistic("a", clock);
    var theirs := UserMessage(Local(0), "b", clock.stamp, false);
    OneOptimistic(clock);
    RunKeepsScreen("c", [add]);
    var st := Run("c", [add]);
    ForeignEntryKept(st, UserMessage(Local(0), "a", clock.stamp, true), theirs);
    BrokenByTwo(add, st, Foreign(theirs));
  }

  function Foreign(theirs: Message): Step { History("c", [Entry(theirs, {})], ReplaceMode) }

  lemma ForeignEntryKept(st: Chat, mine: Message, theirs: Message)
    requires ChatScreenInv(st) && st.screen.messages == [mine] && st.screen.tracked == {mine.id}
    requires mine.id == theirs.id && !Matches(mine, theirs) && !Echo(theirs) && Known(theirs.id, st.nextId)
    ensures StepFresh(st, Foreign(theirs)) && !ChatScreenInv(Next(st, Foreign(theirs)))
  {
    ForeignEntryMerge(st, mine, theirs);
    assert theirs.id in st.screen.tracked;
    ForeignEntryShown(st, "c", [Entry(theirs, {})], ReplaceMode, 0);
  }

  lemma BrokenByTwo(a: Step, st: Chat, b: Step)
    requires StepFresh(Start("c"), a) && Run("c", [a]) == st && StepFresh(st, b) && !ChatScreenInv(Next(st, b))
    ensures exists steps: seq<Step> :: RunFresh("c", steps) && !ChatScreenInv(Run("c", steps))
  {
    var steps := [a, b];
    assert steps[..0] == [] && steps[..1] == [a];
    assert RunFresh("c", steps);
    assert !ChatScreenInv(Run("c", steps));
  }

  lemma OneOptimistic(clock: Clock)
    ensures var st := Run("c", [AddOptimistic("a", clock)]);
      && st.screen.messages == [UserMessage(Local(0), "a", clock.stamp, true)]
      && st.screen.tracked == {Local(0)} && st.nextId == 1
    ensures RunOk("c", [AddOptimistic("a", clock)])
  {
    assert [AddOptimistic("a", clock)][..0] == [];
    FirstOptimistic(Start("c"), "a", clock);
  }

  lemma FirstOptimistic(st: Chat, content: string, clock: Clock)
    requires st.screen == Screen([], {}, map[])
    ensures var after, m := AppendOptimistic(st, content, clock),
        UserMessage(Local(st.nextId), content, clock.stamp, true);
      after.screen.messages == [m] && after.screen.tracked == {m.id} && after.nextId == st.nextId + 1
  {
    var m := UserMessage(Local(st.nextId), content, clock.stamp, true);
    assert [] + [m] == [m];
    AloneStays(m);
    assert m in [m];
  }

  lemma AloneStays(m: Message)
    requires Echo(m)
    ensures Collapse([m]) == [m]
  {
    assert [m][..0] == [];
    assert ConfirmedContents([m]) == {};
    assert DropEchoes([m][..0], {}) == [];
  }

  // The entry matches nothing on screen, so it is kept and its id stays tracked.
  lemma ForeignEntryMerge(st: Chat, mine: Message, theirs: Message)
    requires st.screen.messages == [mine] && st.screen.tracked == {mine.id} && mine.id == theirs.id
    requires !Matches(mine, theirs)
    ensures var g := MergeFor(st, [Entry(theirs, {})]); g.untracked == {} && g.kept == [theirs]
  {
    var history := [Entry(theirs, {})];
    assert mine.id in st.screen.tracked;
    assert HasLive(st);
    assert SliceFromEnd([mine], 6) == [mine];
    assert history[..0] == [];
    assert FirstMatch([mine], theirs) == None;
    assert MergeHistory([mine], history[..0]) == Merge([], map[], {}, false);
  }
}
