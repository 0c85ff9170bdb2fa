// From the socket to the transcript: while a run is adopted, its bubble shows what
// the server has streamed up to the highest sequence number accepted.
module ChatDelivery {
  import opened Prelude
  import opened ChatTypes
  import opened ChatModel
  import opened ChatScreen
  import opened ChatIndex
  import opened ChatIsolation
  import opened ChatFinals
  import ChatLive
  import Filter = SequenceFilter

  // ---- delivery ----

  datatype Packet = Packet(event: Event, clock: Clock)

  function Raw(p: Packet): Filter.Message<Packet> {
    var e := p.event;
    if e.CancelAck? then Filter.Message(false, None, Some(e.conversation), None, p)
    else Filter.Message(false, Some(e.seqNo), Some(e.conversation), Some(e.inflight), p)
  }

  // The remembered sequence numbers and the transcript they guard.
  datatype Client = Client(last: Filter.LastSeen, chat: Chat)

  function Receive(c: Client, p: Packet): Client {
    Client(Filter.Remember(c.last, Raw(p)),
           if Filter.Accepts(c.last, Raw(p)) then HandleWsEvent(c.chat, p.event, p.clock) else c.chat)
  }

  // What happens to a client: a message arrives, or the page calls an operation.
  datatype Move = Arrives(packet: Packet) | Does(step: Step)

  function Perform(c: Client, m: Move): Client {
    match m
    case Arrives(p) => Receive(c, p)
    case Does(step) => c.(chat := Next(c.chat, step))
  }

  function PerformAll(c: Client, ms: seq<Move>): Client {
    if ms == [] then c else Perform(PerformAll(c, ms[..|ms| - 1]), ms[|ms| - 1])
  }

  function RunKey(conversation: string, i: InflightId): string { conversation + ":" + i }

  // ---- what the server sends for one run ----

  // Everything streamed up to number s; deltas[s - 1] is what number s adds.
  function TextAt(deltas: seq<string>, s: nat): string
    requires s <= |deltas|
  {
    if s == 0 then "" else TextAt(deltas, s - 1) + deltas[s - 1]
  }

  function Contribution(e: Event): string { if e.AssistantDelta? then e.delta else "" }

  function Thought(e: Event): string { if e.AnalysisDelta? then e.delta else "" }

  // One run: its answer and its reasoning, "" for numbers that add nothing to them.
  datatype Server = Server(conversation: string, inflight: InflightId, deltas: seq<string>, thoughts: seq<string>)
  {
    predicate Sends(e: Event) {
      && e.Transcript() && e.conversation == conversation && e.inflight == inflight && !e.TurnFinal?
      && 1 <= e.seqNo <= |deltas| && e.seqNo <= |thoughts|
      && (if e.InflightSnapshot? then e.text == TextAt(deltas, e.seqNo) && e.think == TextAt(thoughts, e.seqNo)
          else deltas[e.seqNo - 1] == Contribution(e) && thoughts[e.seqNo - 1] == Thought(e))
    }

    function Key(): string { RunKey(conversation, inflight) }

    function Seen(c: Client): int { Filter.Last(c.last, Key()) }
  }

  // The bubble is on screen with this body.
  predicate Shows(ms: seq<Message>, b: Id, body: Body) {
    exists m :: m in ms && m.id == b && m.role.Assistant? && m.body == body
  }

  predicate ShowsText(ms: seq<Message>, b: Id, text: string, think: string) {
    exists m :: m in ms && m.id == b && m.role.Assistant? && m.body.text == text && m.body.think == think
  }

  // The run is current, not final, and bubble b shows all that is live.
  predicate Adopted(st: Chat, s: Server, b: Id) {
    && st.conversation == s.conversation && st.cursor.inflight == Some(s.inflight) && s.inflight != ""
    && s.inflight !in st.index.finalized && Lookup(st.index.assistantOf, s.inflight) == Some(b)
    && Shows(st.screen.messages, b, st.live)
  }

  // A snapshot or user turn that would put another run, or none, into the live buffers.
  predicate Displaces(st: Chat, e: Event) {
    || (e.InflightSnapshot? && e.inflight !in st.index.seen && e.inflight !in st.index.finalized)
    || (e.UserTurn? && if e.inflight == "" then EnsureTarget(st, None, false) == None else e.inflight !in st.index.seen)
  }

  // What may arrive without another adoption, a final of this run or a reset.
  predicate Harmless(st: Chat, s: Server, e: Event) {
    || e.conversation != st.conversation
    || (e.CancelAck? && !AckTaken(st, e))
    || (e.Transcript() && e.inflight != s.inflight && !Displaces(st, e))
  }

  // What the page may do meanwhile: stop, add, bind or settle messages, see a request
  // of this run accepted or fail, or try to send in vain.
  predicate LocalHarmless(st: Chat, s: Server, step: Step) {
    match step
    case Stop(_) => true
    case AddLocal(_) => true
    case AddOptimistic(_, _) => true
    case Bind(_, _) => true
    case Settle(_) => true
    case Begin(text, ready, _, _) => Blank(text) || st.cursor.status.Sending? || !ready
    case Accepted(i, conversation) => (i == "" || i == s.inflight)
        && (conversation == "" || conversation == s.conversation)
    case Rejected(_, refused) => !refused
    case _ => false
  }

  // Another run's numbers are kept under another key.
  predicate OwnKey(s: Server, e: Event) {
    e.Transcript() && Filter.KeyOf(Raw(Packet(e, Clock(0, Stamp("", None))))) == s.Key() ==>
      e.conversation == s.conversation && e.inflight == s.inflight
  }

  // ---- the bubble keeps its text ----

  lemma ShowKeepsBubble(s: Screen, ms: seq<Message>, m: Message)
    requires m in ms && m.role.Assistant?
    ensures m in Show(s, ms).messages
  {
    CollapseClears(ms);
  }

  lemma SyncWritesBubble(st: Chat, id: Id, p: Patch, m: Message)
    requires m in st.screen.messages && m.id == id && m.role.Assistant? && p.body.Some?
    ensures var after := Sync(st, id, p).screen.messages;
      exists x :: x in after && x.id == id && x.role.Assistant? && x.body == p.body.value
  {
    var k :| 0 <= k < |st.screen.messages| && st.screen.messages[k] == m;
    var edited := Edit(st.screen.messages, id, p);
    assert edited[k] in edited;
    ShowKeepsBubble(st.screen, edited, edited[k]);
  }

  lemma OwnIncremental(st: Chat, s: Server, b: Id, e: Event, clock: Clock)
    requires Adopted(st, s, b) && Incremental(e) && e.inflight == s.inflight
    ensures Adopted(OnIncremental(st, e, clock), s, b)
    ensures var live := OnIncremental(st, e, clock).live;
      live.text == st.live.text + Contribution(e) && live.think == st.live.think + Thought(e)
  {
    var m :| m in st.screen.messages && m.id == b && m.role.Assistant? && m.body == st.live;
    var live := Advance(st.live, e, Local(st.nextId));
    SyncWritesBubble(st, b, NO_PATCH.(body := Some(live), streamStatus := Some(Processing)), m);
    assert live.text == st.live.text + Contribution(e) && live.think == st.live.think + Thought(e);
  }

  lemma OwnTurn(st: Chat, s: Server, b: Id, e: Event, clock: Clock)
    requires Sound(st) && Adopted(st, s, b) && e.UserTurn? && e.inflight == s.inflight
    ensures Adopted(OnUserTurn(st, e, clock), s, b) && OnUserTurn(st, e, clock).live == st.live
  {
    var m :| m in st.screen.messages && m.id == b && m.role.Assistant? && m.body == st.live;
    var a := AdoptTurn(st, e.inflight);
    var r := Ensure(a, Key(e.inflight), false, clock);
    assert r.screen == st.screen;
    ShowTurnSpares(r, Lookup(r.screen.trackedBy, e.inflight), e.content, e.createdAt, clock.now, None);
    BubblesMembers(r.screen.messages, None);
    BubblesMembers(OnUserTurn(st, e, clock).screen.messages, None);
  }

  // Every other harmless event leaves the run and its bubble alone.
  lemma OthersKeepRun(st: Chat, s: Server, b: Id, e: Event, clock: Clock)
    requires Sound(st) && Adopted(st, s, b) && Harmless(st, s, e)
    ensures Adopted(HandleWsEvent(st, e, clock), s, b) && HandleWsEvent(st, e, clock).live == st.live
  {
    if e.conversation == st.conversation && e.Transcript() {
      if e.TurnFinal? {
        LateFinalSparesBubble(st, s, b, e, clock);
      } else if e.UserTurn? && e.inflight == "" {
        UnnamedTurnKeepsRun(st, s, b, e, clock);
      } else if e.inflight in st.index.seen {
        StaleEventChangesNothingLive(st, e, clock);
      }
    }
  }

  lemma LateFinalSparesBubble(st: Chat, s: Server, b: Id, e: Event, clock: Clock)
    requires Sound(st) && Adopted(st, s, b) && e.conversation == st.conversation
    requires e.TurnFinal? && e.inflight != s.inflight
    ensures Adopted(HandleWsEvent(st, e, clock), s, b) && HandleWsEvent(st, e, clock).live == st.live
  {
    var step := Ws(e, clock);
    var after := HandleWsEvent(st, e, clock);
    OtherInflightsKept(st, e, clock, s.inflight);
    StepKeepsSound(st, step);
    assert after.index.historical[s.inflight] == b;
    if e.inflight == "" { UnnamedKeepsBubble(st, e, clock, b); } else { OtherBubbleKept(st, step, b); }
    var m :| m in st.screen.messages && m.id == b && m.role.Assistant?
          && m.body == st.live;
    assert m in after.screen.messages;
    assert after.live == st.live && after.cursor.inflight == st.cursor.inflight;
  }

  lemma UnnamedTurnRefs(st: Chat, e: Event, clock: Clock)
    requires e.UserTurn? && e.inflight == "" && EnsureTarget(st, None, false).Some?
    ensures var after := OnUserTurn(st, e, clock);
      && after.live == st.live && after.index == st.index && after.conversation == st.conversation
      && after.cursor.inflight == st.cursor.inflight
  {
    assert AdoptTurn(st, "") == st && Key("") == None;
    var r := Ensure(st, None, false, clock);
    assert r.live == st.live && r.index == st.index;
  }

  lemma UnnamedTurnKeepsRun(st: Chat, s: Server, b: Id, e: Event, clock: Clock)
    requires Sound(st) && Adopted(st, s, b) && e.conversation == st.conversation
    requires e.UserTurn? && e.inflight == "" && EnsureTarget(st, None, false).Some?
    ensures Adopted(HandleWsEvent(st, e, clock), s, b) && HandleWsEvent(st, e, clock).live == st.live
  {
    UnnamedTurnRefs(Heard(st, e), e, clock);
    UnnamedTurnKeepsBubbles(st, e, clock, b);
    var m :| m in st.screen.messages && m.id == b && m.role.Assistant?
          && m.body == st.live;
    assert m in HandleWsEvent(st, e, clock).screen.messages;
  }

  // ---- local operations ----

  // A list that still holds every bubble still holds this one.
  lemma KeptBubbleShows(st: Chat, after: Chat, ms: seq<Message>, b: Id)
    requires Shows(st.screen.messages, b, st.live) && after.live == st.live
    requires forall m | m in st.screen.messages && m.role.Assistant? :: m in ms
    requires exists s: Screen :: after.screen == Show(s, ms)
    ensures Shows(after.screen.messages, b, after.live)
  {
    var m :| m in st.screen.messages && m.id == b && m.role.Assistant?
          && m.body == st.live;
    var s: Screen :| after.screen == Show(s, ms);
    ShowKeepsBubble(s, ms, m);
  }

  lemma AppendsKeepRun(st: Chat, s: Server, b: Id, step: Step)
    requires Adopted(st, s, b) && (step.Stop? || step.AddLocal? || step.AddOptimistic? || step.Bind?)
    ensures Adopted(Next(st, step), s, b) && Next(st, step).live == st.live
  {
    var ms, after := st.screen.messages, Next(st, step);
    match step {
      case Stop(_) => if st.cursor.active.Some? { KeptBubbleShows(st, after, ms, b); }
      case AddLocal(m) => KeptBubbleShows(st, after, ms + [m], b);
      case AddOptimistic(content, clock) =>
        KeptBubbleShows(st, after, ms + [UserMessage(Local(st.nextId), content, clock.stamp, true)], b);
      case Bind(_, _) =>
    }
  }

  lemma SettleKeepsRun(st: Chat, s: Server, b: Id, id: Id)
    requires Adopted(st, s, b)
    ensures Adopted(FinalizeOptimistic(st, id), s, b) && FinalizeOptimistic(st, id).live == st.live
  {
    var ms := Unoptimistic(st.screen.messages, id);
    forall m | m in st.screen.messages && m.role.Assistant? ensures m in ms {
      var k :| 0 <= k < |st.screen.messages| && st.screen.messages[k] == m;
      assert ms[k] == m;
    }
    KeptBubbleShows(st, FinalizeOptimistic(st, id), ms, b);
  }

  lemma FailureKeepsRun(st: Chat, s: Server, b: Id, error: string)
    requires Adopted(st, s, b)
    ensures Adopted(SendFailed(st, error, false), s, b) && SendFailed(st, error, false).live == st.live
  {
    var t := ErrorShown(st, error, false);
    KeptBubbleShows(st, t, st.screen.messages + [ErrorBubble(Local(st.nextId), error)], b);
    if t.cursor.active.Some? {
      var id, p := t.cursor.active.value, NO_PATCH.(body := Some(t.live), streamStatus := Some(Failed));
      var m :| m in t.screen.messages && m.id == b && m.role.Assistant?
            && m.body == t.live;
      if id == b {
        SyncWritesBubble(t, id, p, m);
      } else {
        var k :| 0 <= k < |t.screen.messages| && t.screen.messages[k] == m;
        var edited := Edit(t.screen.messages, id, p);
        assert edited[k] == m;
        ShowKeepsBubble(t.screen, edited, m);
      }
    }
  }

  // None of the harmless operations touches the run or its bubble.
  lemma LocalKeepsRun(st: Chat, s: Server, b: Id, step: Step)
    requires Sound(st) && Adopted(st, s, b) && LocalHarmless(st, s, step) && StepFresh(st, step)
    ensures var after := Next(st, step); Sound(after) && Adopted(after, s, b) && after.live == st.live
  {
    StepKeepsScreen(st, step);
    StepKeepsIndex(st, step);
    match step {
      case Settle(id) => SettleKeepsRun(st, s, b, id);
      case Rejected(error, refused) => FailureKeepsRun(st, s, b, error);
      case Begin(_, _, _, _) =>
      case Accepted(_, _) =>
      case _ => AppendsKeepRun(st, s, b, step);
    }
  }

  // ---- the run's own messages ----

  // How one message of the run changes the live text and reasoning.
  predicate Updated(before: Body, after: Body, e: Event) {
    if e.InflightSnapshot? then after.text == e.text && after.think == e.think
    else after.text == before.text + Contribution(e) && after.think == before.think + Thought(e)
  }

  // One accepted message of the run itself.
  lemma OwnEvent(st: Chat, s: Server, b: Id, e: Event, clock: Clock)
    requires Sound(st) && Adopted(st, s, b) && s.Sends(e)
    ensures var after := HandleWsEvent(st, e, clock);
      Adopted(after, s, b) && Updated(st.live, after.live, e)
  {
    var h := Heard(st, e);
    assert Adopted(h, s, b) && Sound(h);
    if e.UserTurn? {
      OwnTurn(h, s, b, e, clock);
    } else if e.InflightSnapshot? {
      OwnSnapshot(h, s, b, e, clock);
    } else {
      OwnIncremental(h, s, b, e, clock);
    }
  }

  lemma OwnSnapshot(st: Chat, s: Server, b: Id, e: Event, clock: Clock)
    requires Adopted(st, s, b) && e.InflightSnapshot? && e.inflight == s.inflight
    ensures Adopted(OnSnapshot(st, e, clock), s, b) && Updated(st.live, OnSnapshot(st, e, clock).live, e)
  {
    var m :| m in st.screen.messages && m.id == b && m.role.Assistant? && m.body == st.live;
    SnapshotWrites(st, e, clock, m);
  }

  lemma SnapshotWrites(st: Chat, e: Event, clock: Clock, m: Message)
    requires e.InflightSnapshot? && e.inflight !in st.index.finalized && !StaleReplay(st, e.inflight)
    requires m in Ensure(st, Key(e.inflight), false, clock).screen.messages
    requires m.id == EnsuredId(st, Key(e.inflight), false) && m.role.Assistant?
    ensures var after := OnSnapshot(st, e, clock);
      && after.live.text == e.text && after.live.think == e.think
      && Shows(after.screen.messages, m.id, after.live)
  {
    ChatLive.AdoptSnapshotLive(st, e.inflight, e.text, e.think, e.toolEvents, e.startedAt, e.command, clock);
    var r := Ensure(st, Key(e.inflight), false, clock);
    var applied := ApplyTools(SnapshotBody(e.text, e.think), e.toolEvents, r.nextId);
    SyncWritesBubble(r, m.id, StartedPatch(applied.0, e.startedAt, e.command), m);
  }

  // ---- the whole delivery ----

  predicate NothingSkipped(deltas: seq<string>, from: int, to: int)
    requires 0 <= from && to <= |deltas|
  {
    forall n | from <= n < to - 1 :: deltas[n] == ""
  }

  predicate NoGap(s: Server, from: int, to: int)
    requires 0 <= from && to <= |s.deltas| && to <= |s.thoughts|
  {
    NothingSkipped(s.deltas, from, to) && NothingSkipped(s.thoughts, from, to)
  }

  lemma {:induction false} SkippedTextIsEmpty(deltas: seq<string>, from: nat, to: nat)
    requires from < to <= |deltas| && NothingSkipped(deltas, from, to)
    ensures TextAt(deltas, to - 1) == TextAt(deltas, from)
  {
    if from < to - 1 { SkippedTextIsEmpty(deltas, from, to - 1); }
  }

  // No other adoption, no final of the run and no reset.
  predicate Allowed(c: Client, s: Server, m: Move) {
    match m
    case Arrives(p) => Filter.Accepts(c.last, Raw(p)) ==> s.Sends(p.event) || Harmless(c.chat, s, p.event)
    case Does(step) => LocalHarmless(c.chat, s, step) && StepFresh(c.chat, step)
  }

  predicate Permitted(c: Client, s: Server, m: Move) {
    Allowed(c, s, m) && (m.Arrives? && Filter.Accepts(c.last, Raw(m.packet)) ==> OwnKey(s, m.packet.event))
  }

  // Everything that happens, from adoption on.
  predicate Window(c: Client, s: Server, ms: seq<Move>) {
    forall k | 0 <= k < |ms| :: Permitted(PerformAll(c, ms[..k]), s, ms[k])
  }

  // An accepted message of the run itself.
  predicate Own(c: Client, s: Server, m: Move) {
    m.Arrives? && Filter.Accepts(c.last, Raw(m.packet)) && s.Sends(m.packet.event)
  }

  predicate Exact(c: Client, s: Server) {
    && 0 <= s.Seen(c) <= |s.deltas| && s.Seen(c) <= |s.thoughts|
    && c.chat.live.text == TextAt(s.deltas, s.Seen(c)) && c.chat.live.think == TextAt(s.thoughts, s.Seen(c))
  }

  // Text was exact at the start, or at the last accepted snapshot, and since then
  // no accepted message has skipped over text: every gap has been healed.
  predicate Healed(c: Client, s: Server, ms: seq<Move>) {
    if ms == [] then Exact(c, s)
    else
      var init, m := ms[..|ms| - 1], ms[|ms| - 1];
      var before := PerformAll(c, init);
      if !Own(before, s, m) then Healed(c, s, init)
      else
        m.packet.event.InflightSnapshot?
        || (Healed(c, s, init) && s.Seen(before) >= 0 && NoGap(s, s.Seen(before), m.packet.event.seqNo))
  }

  // What one move does to the remembered number of the run.
  lemma SeenAfter(c: Client, s: Server, m: Move)
    requires s.conversation != "" && s.inflight != "" && c.chat.conversation == s.conversation && Permitted(c, s, m)
    ensures s.Seen(Perform(c, m)) == if Own(c, s, m) then m.packet.event.seqNo else s.Seen(c)
    ensures Own(c, s, m) ==> m.packet.event.seqNo > s.Seen(c)
  {
    if m.Arrives? {
      var p := m.packet;
      assert s.Sends(p.event) ==> Filter.KeyOf(Raw(p)) == s.Key();
      assert p.event.Transcript() ==>
        Filter.KeyOf(Raw(p)) == Filter.KeyOf(Raw(Packet(p.event, Clock(0, Stamp("", None)))));
      if s.Sends(p.event) { KeyIsKnown(s); }
    }
  }

  lemma KeyIsKnown(s: Server)
    ensures s.Key() != "unknown"
  {
    assert s.Key()[|s.conversation|] == ':';
    assert forall k | 0 <= k < |"unknown"| :: "unknown"[k] != ':';
  }

  lemma MoveKeeps(c: Client, s: Server, b: Id, m: Move)
    requires Sound(c.chat) && Adopted(c.chat, s, b) && Permitted(c, s, m)
    ensures var after := Perform(c, m);
      && Sound(after.chat) && Adopted(after.chat, s, b)
      && (if Own(c, s, m) then Updated(c.chat.live, after.chat.live, m.packet.event)
          else after.chat.live == c.chat.live)
  {
    match m {
      case Does(step) => LocalKeepsRun(c.chat, s, b, step);
      case Arrives(p) =>
        if Filter.Accepts(c.last, Raw(p)) {
          StepKeepsSound(c.chat, Ws(p.event, p.clock));
          if s.Sends(p.event) {
            OwnEvent(c.chat, s, b, p.event, p.clock);
          } else {
            OthersKeepRun(c.chat, s, b, p.event, p.clock);
          }
        }
    }
  }

  lemma ExactStep(before: Client, after: Client, s: Server, own: bool, e: Event)
    requires own ==> s.Sends(e) && e.seqNo > s.Seen(before)
    requires s.Seen(after) == if own then e.seqNo else s.Seen(before)
    requires if own then Updated(before.chat.live, after.chat.live, e) else after.chat.live == before.chat.live
    requires (own && e.InflightSnapshot?) || (Exact(before, s) && (own ==> NoGap(s, s.Seen(before), e.seqNo)))
    ensures Exact(after, s)
  {
    if own && !e.InflightSnapshot? {
      SkippedTextIsEmpty(s.deltas, s.Seen(before), e.seqNo);
      SkippedTextIsEmpty(s.thoughts, s.Seen(before), e.seqNo);
    }
  }

  // One more move keeps the text exact unless it skips text.
  lemma MoveExact(c: Client, s: Server, b: Id, m: Move)
    requires s.conversation != "" && Sound(c.chat) && Adopted(c.chat, s, b) && Permitted(c, s, m)
    requires (Own(c, s, m) && m.packet.event.InflightSnapshot?)
          || (Exact(c, s) && (Own(c, s, m) ==> NoGap(s, s.Seen(c), m.packet.event.seqNo)))
    ensures Exact(Perform(c, m), s)
  {
    MoveKeeps(c, s, b, m);
    SeenAfter(c, s, m);
    if Own(c, s, m) { ExactStep(c, Perform(c, m), s, true, m.packet.event); }
  }

  lemma WindowPrefix(c: Client, s: Server, ms: seq<Move>)
    requires ms != [] && Window(c, s, ms)
    ensures var n := |ms| - 1; Window(c, s, ms[..n]) && Permitted(PerformAll(c, ms[..n]), s, ms[n])
  {
    var n := |ms| - 1;
    assert forall k | 0 <= k < n :: ms[..n][..k] == ms[..k];
  }

  lemma {:induction false} HealedIsExact(c: Client, s: Server, b: Id, ms: seq<Move>)
    requires s.conversation != "" && Sound(c.chat) && Adopted(c.chat, s, b) && Window(c, s, ms)
    ensures var after := PerformAll(c, ms);
      Sound(after.chat) && Adopted(after.chat, s, b) && (Healed(c, s, ms) ==> Exact(after, s))
  {
    if ms != [] {
      var n := |ms| - 1;
      WindowPrefix(c, s, ms);
      HealedIsExact(c, s, b, ms[..n]);
      var before := PerformAll(c, ms[..n]);
      MoveKeeps(before, s, b, ms[n]);
      if Healed(c, s, ms) { MoveExact(before, s, b, ms[n]); }
    }
  }

  // Whatever happens in the window (duplicates, stale replays, other runs and
  // conversations, and the page's own harmless operations among it), once every gap
  // has been healed by a snapshot the run's bubble shows the server's answer and
  // reasoning at the highest number accepted.
  lemma BubbleShowsServerText(c: Client, s: Server, b: Id, ms: seq<Move>)
    requires s.conversation != "" && Sound(c.chat) && Adopted(c.chat, s, b) && Window(c, s, ms) && Healed(c, s, ms)
    ensures var after := PerformAll(c, ms);
      && 0 <= s.Seen(after) <= |s.deltas| && s.Seen(after) <= |s.thoughts|
      && ShowsText(after.chat.screen.messages, b, TextAt(s.deltas, s.Seen(after)), TextAt(s.thoughts, s.Seen(after)))
  {
    HealedIsExact(c, s, b, ms);
  }

  // ---- keys ----

  // Conversation ids without a colon keep the keys of different runs apart.
  lemma PlainIdsKeepKeysApart(s: Server, e: Event)
    requires ':' !in s.conversation && ':' !in e.conversation
    ensures OwnKey(s, e)
  {
    if e.Transcript() {
      var key := Filter.KeyOf(Raw(Packet(e, Clock(0, Stamp("", None)))));
      if e.conversation != "" && e.inflight != "" {
        if key == s.Key() { Filter.JoinsApart(e.conversation, e.inflight, s.conversation, s.inflight); }
      } else {
        assert key == e.conversation && s.Key()[|s.conversation|] == ':';
      }
    }
  }

  // So with such ids nothing has to be assumed about keys.
  lemma PlainIdsShowServerText(c: Client, s: Server, b: Id, ms: seq<Move>)
    requires s.conversation != "" && Sound(c.chat) && Adopted(c.chat, s, b) && Healed(c, s, ms)
    requires forall k | 0 <= k < |ms| :: Allowed(PerformAll(c, ms[..k]), s, ms[k])
    requires ':' !in s.conversation && forall m | m in ms && m.Arrives? :: ':' !in m.packet.event.conversation
    ensures var after := PerformAll(c, ms);
      && 0 <= s.Seen(after) <= |s.deltas| && s.Seen(after) <= |s.thoughts|
      && ShowsText(after.chat.screen.messages, b, TextAt(s.deltas, s.Seen(after)), TextAt(s.thoughts, s.Seen(after)))
  {
    forall k | 0 <= k < |ms| ensures Permitted(PerformAll(c, ms[..k]), s, ms[k]) {
      assert ms[k] in ms;
      if ms[k].Arrives? { PlainIdsKeepKeysApart(s, ms[k].packet.event); }
    }
    BubbleShowsServerText(c, s, b, ms);
  }

  // ---- replays ----

  lemma {:induction false} PerformAllSplits(c: Client, a: seq<Move>, b: seq<Move>)
    ensures PerformAll(c, a + b) == PerformAll(PerformAll(c, a), b)
  {
    if b == [] {
      assert a + b == a;
    } else {
      assert (a + b)[..|a + b| - 1] == a + b[..|b| - 1];
      PerformAllSplits(c, a, b[..|b| - 1]);
    }
  }

  lemma {:induction false} LastOfArrivals(c: Client, ms: seq<Move>, k: nat)
    requires k < |ms| && ms[k].Arrives? && Filter.Sequenced(Raw(ms[k].packet))
    ensures var m := Raw(ms[k].packet); m.seqNo.value <= Filter.Last(PerformAll(c, ms).last, Filter.KeyOf(m))
  {
    if k < |ms| - 1 { LastOfArrivals(c, ms[..|ms| - 1], k); }
  }

  // Delivering a message again, or an older one of the same run, at any later point
  // changes neither the transcript nor what is remembered.
  lemma ReplayChangesNothing(c: Client, a: seq<Move>, e: Packet, b: seq<Move>, k: nat)
    requires k < |a| && a[k].Arrives? && Filter.Sequenced(Raw(e)) && Filter.Sequenced(Raw(a[k].packet))
    requires Filter.KeyOf(Raw(e)) == Filter.KeyOf(Raw(a[k].packet))
    requires Raw(e).seqNo.value <= Raw(a[k].packet).seqNo.value
    ensures PerformAll(c, a + [Arrives(e)] + b) == PerformAll(c, a + b)
  {
    LastOfArrivals(c, a, k);
    var again := a + [Arrives(e)];
    assert again[..|a|] == a;
    assert PerformAll(c, again) == PerformAll(c, a);
    PerformAllSplits(c, again, b);
    PerformAllSplits(c, a, b);
  }

  // ---- adoption ----

  // A snapshot that is not ignored adopts its run, text and all, exactly when the
  // run's bubble, if it has one, is still on screen.
  lemma SnapshotAdopts(st: Chat, s: Server, e: Event, clock: Clock)
    requires Sound(st) && e.InflightSnapshot? && s.Sends(e) && s.inflight != "" && st.conversation == s.conversation
    requires e.inflight !in st.index.finalized && !StaleReplay(st, e.inflight)
    ensures var after, b := HandleWsEvent(st, e, clock), EnsuredId(st, Key(e.inflight), false);
      && after.live.text == e.text && after.live.think == e.think
      && (Adopted(after, s, b) <==> (e.inflight in st.index.assistantOf ==> Visible(st.screen.messages, b)))
  {
    var h := Heard(st, e);
    var b := EnsuredId(h, Key(e.inflight), false);
    if e.inflight in h.index.assistantOf && !Visible(h.screen.messages, b) {
      SnapshotOfLostBubble(h, e, clock);
    } else {
      SnapshotShows(h, e, clock);
    }
    ChatLive.AdoptSnapshotLive(h, e.inflight, e.text, e.think, e.toolEvents, e.startedAt, e.command, clock);
    SnapshotIndex(h, e, clock);
  }

  lemma SnapshotIndex(st: Chat, e: Event, clock: Clock)
    requires e.InflightSnapshot? && e.inflight !in st.index.finalized && !StaleReplay(st, e.inflight)
        && e.inflight != ""
    ensures var after := OnSnapshot(st, e, clock);
      && after.conversation == st.conversation && after.cursor.inflight == Some(e.inflight)
      && after.index.finalized == st.index.finalized
      && Lookup(after.index.assistantOf, e.inflight) == Some(EnsuredId(st, Key(e.inflight), false))
  {
  }

  lemma SnapshotShows(st: Chat, e: Event, clock: Clock)
    requires e.InflightSnapshot? && e.inflight !in st.index.finalized && !StaleReplay(st, e.inflight)
        && e.inflight != ""
    requires e.inflight in st.index.assistantOf ==> Visible(st.screen.messages, st.index.assistantOf[e.inflight])
    ensures var after := OnSnapshot(st, e, clock);
      Shows(after.screen.messages, EnsuredId(st, Key(e.inflight), false), after.live)
  {
    var b := EnsuredId(st, Key(e.inflight), false);
    if e.inflight !in st.index.assistantOf {
      var m := NewBubble(b, clock.stamp);
      ShowKeepsBubble(st.screen, st.screen.messages + [m], m);
      SnapshotWrites(st, e, clock, m);
    } else {
      var k :| 0 <= k < |st.screen.messages| && st.screen.messages[k].id == b && st.screen.messages[k].role.Assistant?;
      SnapshotWrites(st, e, clock, st.screen.messages[k]);
    }
  }

  lemma SnapshotOfLostBubble(st: Chat, e: Event, clock: Clock)
    requires e.InflightSnapshot? && e.inflight !in st.index.finalized && !StaleReplay(st, e.inflight)
    requires e.inflight != "" && e.inflight in st.index.assistantOf
    requires !Visible(st.screen.messages, st.index.assistantOf[e.inflight])
    ensures forall m | m in OnSnapshot(st, e, clock).screen.messages && m.id == st.index.assistantOf[e.inflight] ::
      !m.role.Assistant?
  {
    var r := Ensure(st, Key(e.inflight), false, clock);
    var applied := ApplyTools(SnapshotBody(e.text, e.think), e.toolEvents, r.nextId);
    SyncAddsNoBubble(r, st.index.assistantOf[e.inflight], StartedPatch(applied.0, e.startedAt, e.command));
  }

  lemma SyncAddsNoBubble(st: Chat, id: Id, p: Patch)
    requires !Visible(st.screen.messages, id)
    ensures forall m | m in Sync(st, id, p).screen.messages && m.id == id :: !m.role.Assistant?
  {
    var edited := Edit(st.screen.messages, id, p);
    CollapseClears(edited);
    forall m | m in edited && m.id == id ensures !m.role.Assistant? {
      var k :| 0 <= k < |edited| && edited[k] == m;
      assert st.screen.messages[k].id == id;
    }
  }

  // A user turn that starts a run gives it an empty bubble of its own.
  lemma TurnAdopts(st: Chat, s: Server, e: Event, clock: Clock)
    requires Sound(st) && e.UserTurn? && s.Sends(e) && s.inflight != "" && st.conversation == s.conversation
    requires !TurnIgnored(st, e.inflight) && e.inflight !in st.index.assistantOf
    ensures var after := HandleWsEvent(st, e, clock);
      after.live.text == "" && after.live.think == "" && Adopted(after, s, Local(st.nextId))
  {
    var h, i := Heard(st, e), e.inflight;
    var a := AdoptTurn(h, i);
    var r := Ensure(a, Key(i), false, clock);
    var m := NewBubble(Local(st.nextId), clock.stamp);
    ShowKeepsBubble(a.screen, a.screen.messages + [m], m);
    EnsureKeeps(a, Key(i), false, clock);
    ShowTurnSpares(r, Lookup(r.screen.trackedBy, i), e.content, e.createdAt, clock.now, None);
    BubblesMembers(r.screen.messages, None);
    BubblesMembers(HandleWsEvent(st, e, clock).screen.messages, None);
  }

  // The snapshot also makes the text exact, so that nothing before it matters.
  lemma SnapshotIsExact(c: Client, s: Server, p: Packet)
    requires Sound(c.chat) && s.conversation != "" && s.inflight != "" && c.chat.conversation == s.conversation
    requires p.event.InflightSnapshot? && Own(c, s, Arrives(p))
    requires s.inflight !in c.chat.index.finalized && !StaleReplay(c.chat, s.inflight)
    ensures Exact(Receive(c, p), s)
  {
    SnapshotAdopts(c.chat, s, p.event, p.clock);
    KeyIsKnown(s);
  }

  // From a snapshot's delivery to any later point of its window.
  lemma SnapshotThenDelivery(c: Client, s: Server, p: Packet, ms: seq<Move>)
    requires Sound(c.chat) && s.conversation != "" && s.inflight != "" && c.chat.conversation == s.conversation
    requires p.event.InflightSnapshot? && Own(c, s, Arrives(p))
    requires s.inflight !in c.chat.index.finalized && !StaleReplay(c.chat, s.inflight)
    requires s.inflight in c.chat.index.assistantOf ==>
      Visible(c.chat.screen.messages, c.chat.index.assistantOf[s.inflight])
    requires Window(Receive(c, p), s, ms) && Healed(Receive(c, p), s, ms)
    ensures var after, b := PerformAll(Receive(c, p), ms), EnsuredId(c.chat, Key(s.inflight), false);
      && 0 <= s.Seen(after) <= |s.deltas| && s.Seen(after) <= |s.thoughts|
      && ShowsText(after.chat.screen.messages, b, TextAt(s.deltas, s.Seen(after)), TextAt(s.thoughts, s.Seen(after)))
  {
    SnapshotAdopts(c.chat, s, p.event, p.clock);
    StepKeepsSound(c.chat, Ws(p.event, p.clock));
    BubbleShowsServerText(Receive(c, p), s, EnsuredId(c.chat, Key(s.inflight), false), ms);
  }

  // The message follows the last one of its run, or is a snapshot.
  predicate Follows(c: Client, s: Server, m: Move) {
    Own(c, s, m) ==> m.packet.event.InflightSnapshot? || m.packet.event.seqNo == s.Seen(c) + 1
  }

  predicate InOrder(c: Client, s: Server, ms: seq<Move>) {
    forall k | 0 <= k < |ms| :: Follows(PerformAll(c, ms[..k]), s, ms[k])
  }

  lemma InOrderPrefix(c: Client, s: Server, ms: seq<Move>)
    requires ms != [] && InOrder(c, s, ms)
    ensures var n := |ms| - 1; InOrder(c, s, ms[..n]) && Follows(PerformAll(c, ms[..n]), s, ms[n])
  {
    var n := |ms| - 1;
    assert forall k | 0 <= k < n :: ms[..n][..k] == ms[..k];
  }

  // No gap needs healing while each number follows the last.
  lemma {:induction false} ConsecutiveIsHealed(c: Client, s: Server, b: Id, ms: seq<Move>)
    requires s.conversation != "" && Sound(c.chat) && Adopted(c.chat, s, b) && Window(c, s, ms) && Exact(c, s)
    requires InOrder(c, s, ms)
    ensures Healed(c, s, ms)
  {
    if ms != [] {
      var n := |ms| - 1;
      WindowPrefix(c, s, ms);
      InOrderPrefix(c, s, ms);
      ConsecutiveIsHealed(c, s, b, ms[..n]);
      HealedIsExact(c, s, b, ms[..n]);
      HealedNext(c, s, ms);
    }
  }

  lemma HealedNext(c: Client, s: Server, ms: seq<Move>)
    requires ms != [] && Healed(c, s, ms[..|ms| - 1])
    requires var before := PerformAll(c, ms[..|ms| - 1]); s.Seen(before) >= 0 && Follows(before, s, ms[|ms| - 1])
    ensures Healed(c, s, ms)
  {
  }

  // ---- the end of a run ----

  // The final of an adopted run leaves its bubble what was live (or the error of a
  // failed run that wrote nothing), ended as the final says, and settles it.
  lemma FinalFinishes(st: Chat, s: Server, b: Id, e: Event, clock: Clock, was: Message)
    requires Sound(st) && Adopted(st, s, b) && e.TurnFinal? && e.inflight == s.inflight
        && e.conversation == st.conversation
    requires was in st.screen.messages && was.id == b && was.role.Assistant?
    ensures var after := HandleWsEvent(st, e, clock);
      Settled(after, b) && exists m :: m in after.screen.messages && EndsAs(was, m, e) && EndsWith(st.live, m.body, e)
  {
    FinalSettles(st, e, clock);
    CurrentFinalEnds(st, e, clock, was);
  }

  // And so it stays, whatever transcript events follow.
  lemma FinishedForever(st: Chat, s: Server, b: Id, e: Event, clock: Clock, was: Message, later: seq<Step>)
    requires Sound(st) && Adopted(st, s, b) && e.TurnFinal? && e.inflight == s.inflight
        && e.conversation == st.conversation
    requires was in st.screen.messages && was.id == b && was.role.Assistant?
    requires forall k | 0 <= k < |later| :: Spares(After(HandleWsEvent(st, e, clock), later[..k]), later[k], b)
    ensures var after := After(HandleWsEvent(st, e, clock), later);
      exists m :: m in after.screen.messages && EndsAs(was, m, e) && EndsWith(st.live, m.body, e)
  {
    FinalFinishes(st, s, b, e, clock, was);
    var final := HandleWsEvent(st, e, clock);
    StepKeepsSound(st, Ws(e, clock));
    SettledForever(final, later, b);
    var m :| m in final.screen.messages && EndsAs(was, m, e) && EndsWith(st.live, m.body, e);
    assert m in After(final, later).screen.messages;
  }
}
