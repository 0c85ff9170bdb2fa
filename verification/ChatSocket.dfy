// client/src/hooks/useChatWs.ts: the connection of the chat hook, with its
// pending messages and the subscriptions it wants, across closes and reconnects.
module ChatSocket {
  import opened Prelude

  datatype Topic = Sidebar | Ingest | Conversation(id: string)

  datatype Out =
    | Subscribe(topic: Topic)
    | Unsubscribe(topic: Topic)
    | CancelInflight(conversation: string, inflight: Option<string>)

  // wsRef is null, or holds a socket that is connecting or open.
  datatype Ws = Null | Connecting | Open

  datatype Link = Link(
    ws: Ws,
    socketId: nat,
    attempt: nat,              // reconnectAttemptRef
    timer: Option<nat>,        // the delay of the pending reconnect timer
    intentionalClose: bool,
    realtime: bool,
    pending: seq<Out>,
    sidebar: bool,
    ingest: bool,
    conversations: seq<string>,  // a JavaScript Set: distinct, in insertion order
    suspended: nat,            // onopen handlers waiting for the snapshot refresh
    sent: seq<Out>,            // what was sent on the current socket
    resubscribed: bool)        // some onopen handler completed since the last close

  datatype Step =
    | Opens
    | SnapshotSettles
    | Closes
    | TimerFires
    | Want(topic: Topic)
    | Drop(topic: Topic)
    | Cancel(conversation: string, inflight: Option<string>)
    | Teardown
    | Remount(realtime: bool)

  function SendRaw(s: Link, m: Out): Link {
    if s.ws.Open? then s.(sent := s.sent + [m]) else s.(pending := s.pending + [m])
  }

  function SendAll(s: Link, ms: seq<Out>): Link {
    if s.ws.Open? then s.(sent := s.sent + ms) else s.(pending := s.pending + ms)
  }

  function Connect(s: Link): Link {
    if !s.ws.Null? then s.(timer := None)
    else s.(timer := None, intentionalClose := false, socketId := s.socketId + 1, ws := Connecting)
  }

  function ConversationSubscriptions(ids: seq<string>): (r: seq<Out>)
    ensures |r| == |ids| && forall k | 0 <= k < |ids| :: r[k] == Subscribe(Conversation(ids[k]))
  {
    seq(|ids|, k requires 0 <= k < |ids| => Subscribe(Conversation(ids[k])))
  }

  // The end of an onopen handler.
  function Resubscribe(s: Link): Link {
    SendAll(ResubscribeFlags(s), ConversationSubscriptions(s.conversations)).(resubscribed := true)
  }

  function ResubscribeFlags(s: Link): Link {
    var a := SendIf(s, s.sidebar, Subscribe(Sidebar));
    SendIf(a, s.ingest, Subscribe(Ingest))
  }

  function SendIf(s: Link, send: bool, m: Out): Link { if send then SendRaw(s, m) else s }

  function Flush(s: Link): Link {
    if s.ws.Open? then s.(sent := s.sent + s.pending, pending := []) else s
  }

  function Opened(s: Link): Link {
    var wasReconnect := s.attempt > 0;
    var t := Flush(s.(attempt := 0, ws := Open));
    if !t.realtime then t
    else if wasReconnect then t.(suspended := t.suspended + 1)
    else Resubscribe(t)
  }

  const RECONNECT_DELAYS: seq<nat> := [250, 500, 1000, 2000]

  function Min(a: nat, b: nat): nat { if a < b then a else b }

  function Closed(s: Link): Link {
    var t := s.(ws := Null, sent := [], resubscribed := false);
    if t.intentionalClose || !t.realtime then t
    else t.(attempt := t.attempt + 1, timer := Some(RECONNECT_DELAYS[Min(t.attempt, |RECONNECT_DELAYS| - 1)]))
  }

  function Add(ids: seq<string>, id: string): seq<string> { if id in ids then ids else ids + [id] }

  function Remove(ids: seq<string>, id: string): (r: seq<string>)
    ensures forall x :: x in r <==> x in ids && x != id
  {
    if ids == [] then []
    else
      var n := |ids| - 1;
      assert ids == ids[..n] + [ids[n]];
      if ids[n] == id then Remove(ids[..n], id) else Remove(ids[..n], id) + [ids[n]]
  }

  function Mark(s: Link, topic: Topic, wanted: bool): Link {
    match topic
    case Sidebar => s.(sidebar := wanted)
    case Ingest => s.(ingest := wanted)
    case Conversation(id) =>
      s.(conversations := if wanted then Add(s.conversations, id) else Remove(s.conversations, id))
  }

  predicate Ignored(s: Link, topic: Topic) { !s.realtime || topic == Conversation("") }

  function TornDown(s: Link): Link {
    var t := if s.realtime && s.ingest then SendRaw(s.(ingest := false), Unsubscribe(Ingest)) else s;
    t.(intentionalClose := true, timer := None, ws := Null, sent := [], resubscribed := false)
  }

  // A step that is not possible in a state leaves it alone.
  function Next(s: Link, step: Step): Link {
    match step
    case Opens => if s.ws.Connecting? then Opened(s) else s
    case SnapshotSettles => if s.suspended > 0 then Resubscribe(s.(suspended := s.suspended - 1)) else s
    case Closes => if s.ws.Null? then s else Closed(s)
    case TimerFires => if s.timer.Some? then Connect(s) else s
    case Want(topic) => if Ignored(s, topic) then s else SendRaw(Mark(s, topic, true), Subscribe(topic))
    case Drop(topic) => if Ignored(s, topic) then s else SendRaw(Mark(s, topic, false), Unsubscribe(topic))
    case Cancel(conversation, inflight) =>
      if conversation == "" then s
      else
        var t := SendRaw(s, CancelInflight(conversation, inflight));
        if t.ws.Null? then Connect(t) else t
    case Teardown => TornDown(s)
    case Remount(realtime) => Connect(TornDown(s).(realtime := realtime))
  }

  function Mounted(realtime: bool): Link {
    Connect(Link(Null, 0, 0, None, false, realtime, [], false, false, [], 0, [], false))
  }

  function Run(realtime: bool, steps: seq<Step>): Link {
    if steps == [] then Mounted(realtime)
    else Next(Run(realtime, steps[..|steps| - 1]), steps[|steps| - 1])
  }

  // ---- what the server makes of the messages ----

  function Effect(before: set<Topic>, m: Out): set<Topic> {
    if m.Subscribe? then before + {m.topic}
    else if m.Unsubscribe? then before - {m.topic}
    else before
  }

  function Replay(ms: seq<Out>): set<Topic> {
    if ms == [] then {} else Effect(Replay(ms[..|ms| - 1]), ms[|ms| - 1])
  }

  function ConversationTopics(ids: seq<string>): set<Topic> { set id | id in ids :: Conversation(id) }

  function FlagTopics(s: Link): set<Topic> {
    (if s.sidebar then {Sidebar} else {}) + (if s.ingest then {Ingest} else {})
  }

  function Desired(s: Link): set<Topic> { FlagTopics(s) + ConversationTopics(s.conversations) }

  // What the current socket has carried and what waits for it.
  function Wire(s: Link): seq<Out> { s.sent + s.pending }

  ghost predicate LinkInv(s: Link) {
    && (if s.ws.Open? then s.pending == [] else s.sent == [])
    && Replay(Wire(s)) <= Desired(s)
    && (s.resubscribed ==> Replay(Wire(s)) == Desired(s))
  }

  lemma ReplaySnoc(ms: seq<Out>, m: Out)
    ensures Replay(ms + [m]) == Effect(Replay(ms), m)
  {
    assert (ms + [m])[..|ms|] == ms;
  }

  // Sending never reorders: the message goes to the end of the wire.
  lemma SendRawExtends(s: Link, m: Out)
    requires s.ws.Open? ==> s.pending == []
    ensures Wire(SendRaw(s, m)) == Wire(s) + [m]
    ensures Desired(SendRaw(s, m)) == Desired(s)
  {
    assert s.sent + (s.pending + [m]) == s.sent + s.pending + [m];
    if s.ws.Open? { assert s.sent + [m] + s.pending == s.sent + [m]; }
  }

  lemma SendAllExtends(s: Link, ms: seq<Out>)
    requires s.ws.Open? ==> s.pending == []
    ensures Wire(SendAll(s, ms)) == Wire(s) + ms
  {
    assert s.sent + (s.pending + ms) == s.sent + s.pending + ms;
    if s.ws.Open? { assert s.sent + ms + s.pending == s.sent + ms; }
  }

  lemma {:induction false} ReplaySubscriptions(ms: seq<Out>, ids: seq<string>)
    ensures Replay(ms + ConversationSubscriptions(ids)) == Replay(ms) + ConversationTopics(ids)
  {
    var subs := ConversationSubscriptions(ids);
    if ids == [] {
      assert ms + subs == ms;
    } else {
      var n := |ids| - 1;
      ReplaySubscriptions(ms, ids[..n]);
      assert ms + subs == ms + ConversationSubscriptions(ids[..n]) + [subs[n]];
      ReplaySnoc(ms + ConversationSubscriptions(ids[..n]), subs[n]);
      assert ids == ids[..n] + [ids[n]];
    }
  }

  // An open socket has nothing waiting; any other has carried nothing.
  predicate WireOk(s: Link) { if s.ws.Open? then s.pending == [] else s.sent == [] }

  // What sending leaves alone.
  predicate SameHook(s: Link, t: Link) {
    t.ws == s.ws && t.sidebar == s.sidebar && t.ingest == s.ingest && t.conversations == s.conversations
  }

  function TopicIf(wanted: bool, topic: Topic): set<Topic> { if wanted then {topic} else {} }

  lemma SubscribeIfReplays(s: Link, send: bool, topic: Topic)
    requires WireOk(s)
    ensures var t := SendIf(s, send, Subscribe(topic));
      WireOk(t) && SameHook(s, t) && Replay(Wire(t)) == Replay(Wire(s)) + TopicIf(send, topic)
  {
    SendRawExtends(s, Subscribe(topic));
    ReplaySnoc(Wire(s), Subscribe(topic));
  }

  lemma SendAllReplays(s: Link, ids: seq<string>)
    requires WireOk(s)
    ensures var t := SendAll(s, ConversationSubscriptions(ids));
      WireOk(t) && SameHook(s, t) && Replay(Wire(t)) == Replay(Wire(s)) + ConversationTopics(ids)
  {
    SendAllExtends(s, ConversationSubscriptions(ids));
    ReplaySubscriptions(Wire(s), ids);
  }

  lemma FlagsReplay(s: Link)
    requires WireOk(s)
    ensures var t := ResubscribeFlags(s);
      WireOk(t) && SameHook(s, t) && Replay(Wire(t)) == Replay(Wire(s)) + FlagTopics(s)
  {
    var a := SendIf(s, s.sidebar, Subscribe(Sidebar));
    SubscribeIfReplays(s, s.sidebar, Sidebar);
    SubscribeIfReplays(a, s.ingest, Ingest);
    var before, after := Replay(Wire(s)), Replay(Wire(ResubscribeFlags(s)));
    assert after == before + TopicIf(s.sidebar, Sidebar) + TopicIf(s.ingest, Ingest);
    assert FlagTopics(s) == TopicIf(s.sidebar, Sidebar) + TopicIf(s.ingest, Ingest);
  }

  lemma ResubscribeReplays(s: Link)
    requires WireOk(s)
    ensures var t := Resubscribe(s);
      WireOk(t) && SameHook(s, t) && Replay(Wire(t)) == Replay(Wire(s)) + Desired(s)
  {
    FlagsReplay(s);
    var b := ResubscribeFlags(s);
    SendAllReplays(b, s.conversations);
    var after := SendAll(b, ConversationSubscriptions(s.conversations));
    assert Replay(Wire(after)) == Replay(Wire(s)) + FlagTopics(s) + ConversationTopics(s.conversations);
    assert Wire(Resubscribe(s)) == Wire(after);
  }

  // A completed onopen handler leaves exactly the desired subscriptions on the wire.
  lemma ResubscribeRestores(s: Link)
    requires LinkInv(s)
    ensures LinkInv(Resubscribe(s)) && Replay(Wire(Resubscribe(s))) == Desired(Resubscribe(s))
  {
    ResubscribeReplays(s);
  }

  // The invariant is about subscriptions, the wire and whether the socket is open.
  lemma SameWireKeeps(s: Link, t: Link)
    requires LinkInv(s) && SameHook(s, t) && Wire(t) == Wire(s) && t.resubscribed == s.resubscribed && WireOk(t)
    ensures LinkInv(t)
  {
  }

  lemma OpenedKeeps(s: Link)
    requires LinkInv(s) && s.ws.Connecting?
    ensures LinkInv(Opened(s))
  {
    var t := Flush(s.(attempt := 0, ws := Open));
    assert Wire(t) == Wire(s);
    assert LinkInv(t);
    if t.realtime && s.attempt == 0 {
      ResubscribeRestores(t);
    }
  }

  lemma ClosedKeeps(s: Link)
    requires LinkInv(s)
    ensures LinkInv(Closed(s)) && LinkInv(s.(ws := Null, sent := [], resubscribed := false))
  {
    var t := s.(ws := Null, sent := [], resubscribed := false);
    assert Wire(t) == s.pending;
    if s.ws.Open? {
      assert Replay(s.pending) == {};
    } else {
      assert Wire(s) == s.pending;
    }
  }

  lemma MarkDesired(s: Link, topic: Topic, wanted: bool)
    ensures Desired(Mark(s, topic, wanted)) == if wanted then Desired(s) + {topic} else Desired(s) - {topic}
  {
  }

  lemma WantDropKeeps(s: Link, topic: Topic, wanted: bool)
    requires LinkInv(s)
    ensures LinkInv(SendRaw(Mark(s, topic, wanted), if wanted then Subscribe(topic) else Unsubscribe(topic)))
  {
    var t, m := Mark(s, topic, wanted), if wanted then Subscribe(topic) else Unsubscribe(topic);
    MarkDesired(s, topic, wanted);
    SendRawExtends(t, m);
    ReplaySnoc(Wire(s), m);
    assert Wire(t) == Wire(s);
  }

  lemma TornDownKeeps(s: Link)
    requires LinkInv(s)
    ensures LinkInv(TornDown(s))
  {
    if s.realtime && s.ingest {
      WantDropKeeps(s, Ingest, false);
      ClosedKeeps(SendRaw(s.(ingest := false), Unsubscribe(Ingest)));
    } else {
      ClosedKeeps(s);
    }
    var t := if s.realtime && s.ingest then SendRaw(s.(ingest := false), Unsubscribe(Ingest)) else s;
    assert Wire(TornDown(s)) == t.pending;
  }

  lemma ConnectKeeps(s: Link)
    requires LinkInv(s)
    ensures LinkInv(Connect(s))
  {
    var t := Connect(s);
    assert t.sent == s.sent && t.pending == s.pending && Desired(t) == Desired(s);
  }

  lemma CancelKeeps(s: Link, conversation: string, inflight: Option<string>)
    requires LinkInv(s)
    ensures LinkInv(SendRaw(s, CancelInflight(conversation, inflight)))
  {
    SendRawExtends(s, CancelInflight(conversation, inflight));
    ReplaySnoc(Wire(s), CancelInflight(conversation, inflight));
  }

  lemma RemountKeeps(s: Link, realtime: bool)
    requires LinkInv(s)
    ensures LinkInv(Next(s, Remount(realtime)))
  {
    TornDownKeeps(s);
    var t := TornDown(s);
    SameWireKeeps(t, t.(realtime := realtime));
    ConnectKeeps(t.(realtime := realtime));
  }

  lemma SettleKeeps(s: Link)
    requires LinkInv(s)
    ensures LinkInv(Next(s, SnapshotSettles))
  {
    if s.suspended > 0 {
      var t := s.(suspended := s.suspended - 1);
      SameWireKeeps(s, t);
      ResubscribeRestores(t);
    }
  }

  lemma StepKeepsLink(s: Link, step: Step)
    requires LinkInv(s)
    ensures LinkInv(Next(s, step))
  {
    match step {
      case Opens => if s.ws.Connecting? { OpenedKeeps(s); }
      case SnapshotSettles => SettleKeeps(s);
      case Closes => ClosedKeeps(s);
      case TimerFires => ConnectKeeps(s);
      case Want(topic) => WantDropKeeps(s, topic, true);
      case Drop(topic) => WantDropKeeps(s, topic, false);
      case Cancel(conversation, inflight) =>
        CancelKeeps(s, conversation, inflight);
        ConnectKeeps(SendRaw(s, CancelInflight(conversation, inflight)));
      case Teardown => TornDownKeeps(s);
      case Remount(realtime) => RemountKeeps(s, realtime);
    }
  }

  // In every run: nothing outside the desired subscriptions is ever subscribed,
  // counting what waits to be sent.
  lemma {:induction false} RunKeepsLink(realtime: bool, steps: seq<Step>)
    ensures LinkInv(Run(realtime, steps))
  {
    if steps != [] {
      RunKeepsLink(realtime, steps[..|steps| - 1]);
      StepKeepsLink(Run(realtime, steps[..|steps| - 1]), steps[|steps| - 1]);
    }
  }

  predicate CompletesOpen(s: Link, step: Step) {
    || (step.Opens? && s.ws.Connecting? && s.realtime && s.attempt == 0)
    || (step.SnapshotSettles? && s.suspended > 0)
  }

  // Whenever an onopen handler has completed since the last close, whatever
  // subscribes and unsubscribes followed, an open socket has been told exactly
  // the desired subscriptions, and a missing one will be.
  lemma ServerMatchesDesired(realtime: bool, steps: seq<Step>)
    ensures var s := Run(realtime, steps);
      && (s.resubscribed ==> Replay(Wire(s)) == Desired(s))
      && (s.ws.Open? ==> Replay(s.sent) <= Desired(s))
      && (s.ws.Open? && s.resubscribed ==> Replay(s.sent) == Desired(s))
    ensures steps != [] && CompletesOpen(Run(realtime, steps[..|steps| - 1]), steps[|steps| - 1])
        ==> Run(realtime, steps).resubscribed
  {
    RunKeepsLink(realtime, steps);
    var s := Run(realtime, steps);
    if s.ws.Open? { assert Wire(s) == s.sent; }
  }

  // Only losing the socket can undo that.
  lemma ResubscribedLasts(s: Link, step: Step)
    requires s.resubscribed
    ensures Next(s, step).resubscribed <==> !((step.Closes? && !s.ws.Null?) || step.Teardown? || step.Remount?)
  {
    if step.SnapshotSettles? && s.suspended > 0 {
    } else if step.Opens? && s.ws.Connecting? {
    }
  }
}
