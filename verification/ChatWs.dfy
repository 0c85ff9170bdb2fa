// client/src/hooks/useChatWs.ts: the hook's refs and the callbacks that change them.
module ChatWs {
  import opened Prelude
  import opened SequenceFilter
  import opened ChatSocket

  class ChatWs {
    var ws: Ws
    var activeSocketId: nat
    var reconnectAttempt: nat
    var reconnectTimer: Option<nat>  // its delay
    var intentionalClose: bool
    var realtimeEnabled: bool
    var pendingMessages: seq<Out>
    var sidebarSubscribed: bool
    var ingestSubscribed: bool
    var conversationSubscriptions: seq<string>
    var lastSeqByKey: LastSeen
    var suspended: nat
    ghost var sent: seq<Out>
    ghost var resubscribed: bool

    ghost function State(): Link reads this {
      Link(ws, activeSocketId, reconnectAttempt, reconnectTimer, intentionalClose, realtimeEnabled, pendingMessages,
           sidebarSubscribed, ingestSubscribed, conversationSubscriptions, suspended, sent, resubscribed)
    }

    constructor (realtime: bool)
      ensures State() == Mounted(realtime) && lastSeqByKey == map[]
    {
      ws, activeSocketId, reconnectAttempt, reconnectTimer, intentionalClose := Null, 0, 0, None, false;
      realtimeEnabled, pendingMessages := realtime, [];
      sidebarSubscribed, ingestSubscribed, conversationSubscriptions := false, false, [];
      lastSeqByKey, suspended, sent, resubscribed := map[], 0, [], false;
      new;
      ConnectNow();
    }

    // A connecting socket refuses to send; the message then waits like one without a socket.
    method Send(m: Out)
      modifies `pendingMessages, `sent
      ensures State() == SendRaw(old(State()), m)
    {
      if ws.Open? {
        sent := sent + [m];
      } else {
        pendingMessages := pendingMessages + [m];
      }
    }

    method FlushPendingMessages()
      modifies `pendingMessages, `sent
      ensures State() == Flush(old(State()))
    {
      if !ws.Open? { return; }
      var batch := pendingMessages;
      pendingMessages := [];
      var i := 0;
      while i < |batch|
        invariant 0 <= i <= |batch|
        invariant State() == old(State()).(sent := old(sent) + batch[..i], pending := [])
      {
        sent := sent + [batch[i]];
        assert batch[..i + 1] == batch[..i] + [batch[i]];
        i := i + 1;
      }
      assert batch[..i] == batch;
    }

    method ConnectNow()
      modifies `reconnectTimer, `intentionalClose, `activeSocketId, `ws
      ensures State() == Connect(old(State()))
    {
      reconnectTimer := None;
      if !ws.Null? { return; }
      intentionalClose := false;
      activeSocketId := activeSocketId + 1;
      ws := Connecting;
    }

    // The part of onopen after its await.
    method ResubscribeAll()
      modifies `pendingMessages, `sent, `resubscribed
      ensures State() == Resubscribe(old(State()))
    {
      if sidebarSubscribed {
        Send(Subscribe(Sidebar));
      }
      if ingestSubscribed {
        Send(Subscribe(Ingest));
      }
      SendConversations();
      resubscribed := true;
    }

    method SendConversations()
      modifies `pendingMessages, `sent
      ensures State() == SendAll(old(State()), ConversationSubscriptions(conversationSubscriptions))
    {
      ghost var start, subs := State(), ConversationSubscriptions(conversationSubscriptions);
      var k := 0;
      assert start.sent + subs[..0] == start.sent && start.pending + subs[..0] == start.pending;
      while k < |conversationSubscriptions|
        invariant 0 <= k <= |conversationSubscriptions|
        invariant State() == SendAll(start, subs[..k])
      {
        SendOneMore(start, subs, k);
        Send(Subscribe(Conversation(conversationSubscriptions[k])));
        k := k + 1;
      }
      assert subs[..k] == subs;
    }

    method OnOpen()
      requires ws.Connecting?
      modifies `ws, `reconnectAttempt, `suspended, `pendingMessages, `sent, `resubscribed
      ensures State() == Next(old(State()), Opens)
    {
      var wasReconnect := reconnectAttempt > 0;
      reconnectAttempt, ws := 0, Open;
      FlushPendingMessages();
      if wasReconnect && realtimeEnabled {
        suspended := suspended + 1;
        return;
      }
      if !realtimeEnabled { return; }
      ResubscribeAll();
    }

    method SnapshotRefreshed()
      requires suspended > 0
      modifies `suspended, `pendingMessages, `sent, `resubscribed
      ensures State() == Next(old(State()), SnapshotSettles)
    {
      ghost var s := State();
      suspended := suspended - 1;
      assert State() == s.(suspended := s.suspended - 1);
      ResubscribeAll();
    }

    method OnClose()
      requires !ws.Null?
      modifies `ws, `sent, `resubscribed, `reconnectAttempt, `reconnectTimer
      ensures State() == Next(old(State()), Closes)
    {
      ws, sent, resubscribed := Null, [], false;
      if intentionalClose { return; }
      if !realtimeEnabled { return; }
      var attempt := reconnectAttempt + 1;
      reconnectAttempt := attempt;
      reconnectTimer := Some(RECONNECT_DELAYS[Min(attempt - 1, |RECONNECT_DELAYS| - 1)]);
    }

    method OnMessage<T>(socketId: nat, m: Message<T>) returns (forwarded: bool)
      modifies this`lastSeqByKey
      ensures forwarded <==> socketId == activeSocketId && realtimeEnabled && Accepts(old(lastSeqByKey), m)
      ensures lastSeqByKey == if socketId == activeSocketId && realtimeEnabled
                              then Remember(old(lastSeqByKey), m) else old(lastSeqByKey)
    {
      if socketId != activeSocketId || !realtimeEnabled {
        return false;
      }
      var key := KeyOf(m);
      if m.seqNo.Some? && key != "unknown" {
        var last := if key in lastSeqByKey then lastSeqByKey[key] else 0;
        if m.seqNo.value <= last {
          return false;
        }
        lastSeqByKey := lastSeqByKey[key := m.seqNo.value];
      }
      return true;
    }

    method SubscribeTopic(topic: Topic)
      modifies `sidebarSubscribed, `ingestSubscribed, `conversationSubscriptions, `pendingMessages, `sent
      ensures State() == Next(old(State()), Want(topic))
    {
      if !realtimeEnabled || topic == Conversation("") { return; }
      match topic {
        case Sidebar => sidebarSubscribed := true;
        case Ingest => ingestSubscribed := true;
        case Conversation(id) =>
          if id !in conversationSubscriptions {
            conversationSubscriptions := conversationSubscriptions + [id];
          }
      }
      Send(Subscribe(topic));
    }

    method UnsubscribeTopic(topic: Topic)
      modifies `sidebarSubscribed, `ingestSubscribed, `conversationSubscriptions, `pendingMessages, `sent
      ensures State() == Next(old(State()), Drop(topic))
    {
      if !realtimeEnabled || topic == Conversation("") { return; }
      match topic {
        case Sidebar => sidebarSubscribed := false;
        case Ingest => ingestSubscribed := false;
        case Conversation(id) => conversationSubscriptions := Remove(conversationSubscriptions, id);
      }
      Send(Unsubscribe(topic));
    }

    method CancelRun(conversation: string, inflight: Option<string>)
      modifies `pendingMessages, `sent, `reconnectTimer, `intentionalClose, `activeSocketId, `ws
      ensures State() == Next(old(State()), Cancel(conversation, inflight))
    {
      if conversation == "" { return; }
      Send(CancelInflight(conversation, inflight));
      if ws.Null? {
        ConnectNow();
      }
    }

    method Unmount()
      modifies `ingestSubscribed, `pendingMessages, `intentionalClose, `reconnectTimer, `ws, `sent, `resubscribed
      ensures State() == Next(old(State()), Teardown)
    {
      if realtimeEnabled && ingestSubscribed {
        ingestSubscribed := false;
        Send(Unsubscribe(Ingest));
      }
      intentionalClose, reconnectTimer := true, None;
      ws, sent, resubscribed := Null, [], false;
    }

    method ChangeRealtime(realtime: bool)
      modifies `realtimeEnabled, `ingestSubscribed, `pendingMessages, `intentionalClose, `reconnectTimer,
          `activeSocketId, `ws, `sent, `resubscribed
      ensures State() == Next(old(State()), Remount(realtime))
    {
      Unmount();
      realtimeEnabled := realtime;
      ConnectNow();
    }
  }

  lemma SendOneMore(s: Link, ms: seq<Out>, k: nat)
    requires k < |ms|
    ensures SendRaw(SendAll(s, ms[..k]), ms[k]) == SendAll(s, ms[..k + 1])
  {
    assert ms[..k + 1] == ms[..k] + [ms[k]];
    assert s.sent + ms[..k + 1] == s.sent + ms[..k] + [ms[k]];
    assert s.pending + ms[..k + 1] == s.pending + ms[..k] + [ms[k]];
  }
}
