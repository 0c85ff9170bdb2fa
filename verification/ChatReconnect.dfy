// What the connection promises over whole runs: a lost connection is retried, a
// reopened one waits for the snapshot refresh, and no message is lost or overtaken.
module ChatReconnect {
  import opened Prelude
  import opened ChatSocket

  // The step loses the connection other than by leaving.
  predicate Loses(s: Link, step: Step) { step.Closes? && !s.ws.Null? && s.realtime }

  // How often in a row the connection has been lost since it last opened.
  function Losses(realtime: bool, steps: seq<Step>): nat {
    if steps == [] then 0
    else
      var n := |steps| - 1;
      var before, earlier := Run(realtime, steps[..n]), Losses(realtime, steps[..n]);
      if steps[n].Opens? && before.ws.Connecting? then 0
      else if Loses(before, steps[n]) then earlier + 1
      else earlier
  }

  // The page has left, and has neither mounted the hook nor cancelled a run since.
  predicate Left(steps: seq<Step>) {
    if steps == [] then false
    else
      var last := steps[|steps| - 1];
      if last.Teardown? then true
      else if last.Remount? || (last.Cancel? && last.conversation != "") then false
      else Left(steps[..|steps| - 1])
  }

  // How long the retry after the n-th loss in a row waits.
  function RetryDelay(n: nat): nat { if n <= 1 then 250 else if n == 2 then 500 else if n == 3 then 1000 else 2000 }

  ghost predicate Retries(s: Link, losses: nat, left: bool) {
    && s.attempt == losses && s.intentionalClose == left && (left ==> s.ws.Null?)
    && s.timer == (if s.realtime && s.ws.Null? && !left then Some(RetryDelay(losses)) else None)
    && (s.timer.Some? ==> losses > 0)
  }

  predicate SameConnection(s: Link, t: Link) {
    && t.ws == s.ws && t.timer == s.timer && t.attempt == s.attempt
    && t.realtime == s.realtime && t.intentionalClose == s.intentionalClose
  }

  lemma MarkOnly(s: Link, topic: Topic, wanted: bool)
    ensures var t := Mark(s, topic, wanted);
      t == s.(sidebar := t.sidebar, ingest := t.ingest, conversations := t.conversations)
  {
  }

  lemma MarkedConnection(s: Link, topic: Topic, wanted: bool, m: Out)
    ensures var t := SendRaw(Mark(s, topic, wanted), m);
      SameConnection(s, t) && t.suspended == s.suspended && t.resubscribed == s.resubscribed
  {
    MarkOnly(s, topic, wanted);
  }

  lemma ResubscribedConnection(s: Link)
    ensures SameConnection(s, Resubscribe(s)) && Resubscribe(s).suspended == s.suspended
  {
    var a := SendIf(s, s.sidebar, Subscribe(Sidebar));
    assert SameConnection(s, a) && a.suspended == s.suspended;
    var b := ResubscribeFlags(s);
    assert SameConnection(a, b) && b.suspended == a.suspended;
  }

  lemma SettledConnection(s: Link)
    ensures SameConnection(s, Next(s, SnapshotSettles))
  {
    if s.suspended > 0 { ResubscribedConnection(s.(suspended := s.suspended - 1)); }
  }

  lemma OpenedConnection(s: Link)
    ensures SameConnection(s.(ws := Open, attempt := 0), Opened(s))
  {
    ResubscribedConnection(Flush(s.(attempt := 0, ws := Open)));
  }

  lemma TornDownConnection(s: Link)
    ensures SameConnection(s.(ws := Null, timer := None, intentionalClose := true), TornDown(s))
  {
  }

  lemma StepRetries(s: Link, step: Step, losses: nat, left: bool)
    requires Retries(s, losses, left)
    ensures Retries(Next(s, step),
        if step.Opens? && s.ws.Connecting? then 0 else if Loses(s, step) then losses + 1 else losses,
        if step.Teardown? then true
        else if step.Remount? || (step.Cancel? && step.conversation != "") then false else left)
  {
    match step {
      case Opens => if s.ws.Connecting? { OpenedConnection(s); }
      case SnapshotSettles => SettledConnection(s);
      case Want(topic) => MarkedConnection(s, topic, true, Subscribe(topic));
      case Drop(topic) => MarkedConnection(s, topic, false, Unsubscribe(topic));
      case Teardown => TornDownConnection(s);
      case Remount(realtime) => TornDownConnection(s);
      case _ =>
    }
  }

  lemma {:induction false} RunRetries(realtime: bool, steps: seq<Step>)
    ensures Retries(Run(realtime, steps), Losses(realtime, steps), Left(steps))
  {
    if steps != [] {
      var n := |steps| - 1;
      RunRetries(realtime, steps[..n]);
      StepRetries(Run(realtime, steps[..n]), steps[n], Losses(realtime, steps[..n]), Left(steps[..n]));
    }
  }

  // In every run: without a socket the hook waits for a retry, after 250, 500, 1000 and
  // then 2000 milliseconds, exactly if it is in realtime mode and the page has not left.
  // The retry replaces the socket by a new one.
  lemma LossIsRetried(realtime: bool, steps: seq<Step>)
    ensures var s := Run(realtime, steps);
      && s.timer
           == (if s.realtime && s.ws.Null? && !Left(steps) then Some(RetryDelay(Losses(realtime, steps))) else None)
      && (s.timer.Some? ==>
            var t := Next(s, TimerFires);
            Losses(realtime, steps) > 0 && t.ws.Connecting? && t.timer.None? && t.socketId == s.socketId + 1)
  {
    RunRetries(realtime, steps);
  }

  // A socket that opens first sends what was waiting, in order. After a loss nothing
  // else is sent until the snapshot refresh has settled; otherwise the desired
  // subscriptions follow at once, and outside realtime mode nothing does.
  lemma ReopenWaits(realtime: bool, steps: seq<Step>)
    requires Run(realtime, steps).ws.Connecting?
    ensures var s, t := Run(realtime, steps), Run(realtime, steps + [Opens]);
      && t.ws.Open? && t.pending == [] && s.pending <= t.sent && Losses(realtime, steps + [Opens]) == 0
      && (if !s.realtime then t.sent == s.pending && t.suspended == s.suspended
          else if Losses(realtime, steps) > 0 then t.sent == s.pending && t.suspended == s.suspended + 1
          else t.resubscribed && t.suspended == s.suspended && t.sent == s.pending + Subscriptions(s))
  {
    RunRetries(realtime, steps);
    RunKeepsLink(realtime, steps);
    assert (steps + [Opens])[..|steps|] == steps;
    OpenedSubscribes(Run(realtime, steps));
  }

  lemma OpenedSubscribes(s: Link)
    requires LinkInv(s) && s.ws.Connecting?
    ensures var t := Opened(s);
      && t.ws.Open? && t.pending == [] && s.pending <= t.sent
      && (if !s.realtime then t.sent == s.pending && t.suspended == s.suspended
          else if s.attempt > 0 then t.sent == s.pending && t.suspended == s.suspended + 1
          else t.resubscribed && t.suspended == s.suspended && t.sent == s.pending + Subscriptions(s))
  {
    var t := Flush(s.(attempt := 0, ws := Open));
    assert [] + s.pending == s.pending;
    if s.realtime && s.attempt == 0 { FreshSubscribes(t); }
  }

  lemma FreshSubscribes(t: Link)
    requires t.ws.Open? && t.pending == []
    ensures var u := Resubscribe(t);
      && u.ws.Open? && u.pending == [] && u.sent == t.sent + Subscriptions(t)
      && u.resubscribed && u.suspended == t.suspended
  {
    ResubscribeSends(t);
    ResubscribedConnection(t);
  }

  // The subscriptions wanted, in the order they are made again: the flags, and then the
  // conversations in the order they were first wanted.
  function Subscriptions(s: Link): seq<Out> {
    FlagSubscriptions(s) + ConversationSubscriptions(s.conversations)
  }

  function FlagSubscriptions(s: Link): seq<Out> {
    (if s.sidebar then [Subscribe(Sidebar)] else []) + (if s.ingest then [Subscribe(Ingest)] else [])
  }

  lemma FlagsSent(s: Link)
    requires s.ws.Open?
    ensures var b := ResubscribeFlags(s);
      b == s.(sent := s.sent + FlagSubscriptions(s))
  {
    var a := SendIf(s, s.sidebar, Subscribe(Sidebar));
    assert s.sent + [] == s.sent;
    assert a == s.(sent := s.sent + if s.sidebar then [Subscribe(Sidebar)] else []);
    assert FlagSubscriptions(s)
        == (if s.sidebar then [Subscribe(Sidebar)] else []) + (if s.ingest then [Subscribe(Ingest)] else []);
    assert ResubscribeFlags(s).sent == s.sent + FlagSubscriptions(s);
  }

  lemma ResubscribeSends(s: Link)
    requires s.ws.Open? && s.pending == []
    ensures Resubscribe(s).sent == s.sent + Subscriptions(s) && Resubscribe(s).pending == []
  {
    FlagsSent(s);
    var subs := ConversationSubscriptions(s.conversations);
    assert s.sent + FlagSubscriptions(s) + subs == s.sent + (FlagSubscriptions(s) + subs);
  }

  lemma {:induction false} RemoveKeepsOrder(ids: seq<string>, id: string)
    ensures Subsequence(Remove(ids, id), ids)
    ensures forall x :: multiset(Remove(ids, id))[x] == (if x == id then 0 else multiset(ids)[x])
  {
    if ids != [] {
      var init, last := ids[..|ids| - 1], ids[|ids| - 1];
      assert ids == init + [last];
      RemoveKeepsOrder(init, id);
      SubsequenceSnoc(Remove(init, id), init, last);
    }
  }

  lemma SentConversations(s: Link, id: string, wanted: bool, m: Out)
    ensures SendRaw(Mark(s, Conversation(id), wanted), m).conversations
         == if wanted then Add(s.conversations, id) else Remove(s.conversations, id)
  {
  }

  // A conversation wanted is last unless it was wanted already,
  lemma WantedLast(s: Link, id: string)
    requires s.realtime && id != ""
    ensures Next(s, Want(Conversation(id))).conversations
         == if id in s.conversations then s.conversations else s.conversations + [id]
  {
    SentConversations(s, id, true, Subscribe(Conversation(id)));
  }

  // and one dropped is gone, while the others keep their order.
  lemma DroppedInOrder(s: Link, id: string, x: string)
    requires s.realtime && id != ""
    ensures var left := Next(s, Drop(Conversation(id))).conversations;
      && Subsequence(left, s.conversations)
      && multiset(left)[x] == if x == id then 0 else multiset(s.conversations)[x]
  {
    SentConversations(s, id, false, Unsubscribe(Conversation(id)));
    RemoveKeepsOrder(s.conversations, id);
  }

  // ---- a loss heals ----

  function RunFrom(s: Link, steps: seq<Step>): Link {
    if steps == [] then s else Next(RunFrom(s, steps[..|steps| - 1]), steps[|steps| - 1])
  }

  lemma {:induction false} RunSplits(realtime: bool, a: seq<Step>, b: seq<Step>)
    ensures Run(realtime, a + b) == RunFrom(Run(realtime, a), b)
  {
    if b == [] {
      assert a + b == a;
    } else {
      assert (a + b)[..|a + b| - 1] == a + b[..|b| - 1];
      RunSplits(realtime, a, b[..|b| - 1]);
    }
  }

  // Subscribing and unsubscribing only.
  predicate Calm(steps: seq<Step>) { forall k | 0 <= k < |steps| :: steps[k].Want? || steps[k].Drop? }

  lemma {:induction false} CalmKeeps(s: Link, steps: seq<Step>)
    requires Calm(steps)
    ensures var t := RunFrom(s, steps);
      SameConnection(s, t) && t.suspended == s.suspended && t.resubscribed == s.resubscribed
  {
    if steps != [] {
      var before, step := RunFrom(s, steps[..|steps| - 1]), steps[|steps| - 1];
      CalmKeeps(s, steps[..|steps| - 1]);
      if step.Want? { MarkedConnection(before, step.topic, true, Subscribe(step.topic)); }
      if step.Drop? { MarkedConnection(before, step.topic, false, Unsubscribe(step.topic)); }
    }
  }

  lemma CalmThen(realtime: bool, steps: seq<Step>, calm: seq<Step>, step: Step)
    requires Calm(calm)
    ensures var s, t := Run(realtime, steps), Run(realtime, steps + calm);
      SameConnection(s, t) && t.suspended == s.suspended && Run(realtime, steps + calm + [step]) == Next(t, step)
  {
    RunSplits(realtime, steps, calm);
    CalmKeeps(Run(realtime, steps), calm);
    assert (steps + calm + [step])[..|steps + calm|] == steps + calm;
  }

  // However the page subscribes and unsubscribes meanwhile: once a lost connection has
  // been retried and has opened, and the snapshot refresh has settled, the new socket
  // has been told exactly the subscriptions wanted then.
  lemma LossHeals(realtime: bool, steps: seq<Step>, a: seq<Step>, b: seq<Step>, c: seq<Step>)
    requires Run(realtime, steps).ws.Open? && Run(realtime, steps).realtime && Calm(a) && Calm(b) && Calm(c)
    ensures var t := Run(realtime, steps + [Closes] + a + [TimerFires] + b + [Opens] + c + [SnapshotSettles]);
      t.ws.Open? && t.resubscribed && t.timer.None? && Replay(t.sent) == Desired(t)
  {
    var lost := steps + [Closes];
    var retried := lost + a + [TimerFires];
    var open := retried + b + [Opens];
    assert lost[..|steps|] == steps;
    RunRetries(realtime, steps);
    CalmThen(realtime, lost, a, TimerFires);
    CalmThen(realtime, retried, b, Opens);
    CalmThen(realtime, open, c, SnapshotSettles);
    SettledConnection(Run(realtime, open + c));
    ServerMatchesDesired(realtime, open + c + [SnapshotSettles]);
  }

  // ---- messages keep their order ----

  // The message an operation sends.
  function Sends(s: Link, step: Step): seq<Out> {
    match step
    case Want(topic) => if s.realtime && topic != Conversation("") then [Subscribe(topic)] else []
    case Drop(topic) => if s.realtime && topic != Conversation("") then [Unsubscribe(topic)] else []
    case Cancel(conversation, inflight) => if conversation != "" then [CancelInflight(conversation, inflight)] else []
    case _ => []
  }

  // An operation's message goes behind everything sent or waiting, and a cancel is
  // never left without a socket; an operation that sends nothing does nothing.
  lemma OperationSends(s: Link, step: Step)
    requires WireOk(s) && (step.Want? || step.Drop? || step.Cancel?)
    ensures var t := Next(s, step);
      && (if Sends(s, step) == [] then t == s else Wire(t) == Wire(s) + Sends(s, step))
      && (step.Cancel? && step.conversation != "" ==> !t.ws.Null?)
  {
    match step {
      case Want(topic) => MarkedSends(s, topic, true, Subscribe(topic));
      case Drop(topic) => MarkedSends(s, topic, false, Unsubscribe(topic));
      case Cancel(conversation, inflight) => if conversation != "" { CancelSends(s, conversation, inflight); }
    }
  }

  lemma MarkedSends(s: Link, topic: Topic, wanted: bool, m: Out)
    requires WireOk(s)
    ensures Wire(SendRaw(Mark(s, topic, wanted), m)) == Wire(s) + [m]
  {
    MarkOnly(s, topic, wanted);
    SendRawExtends(Mark(s, topic, wanted), m);
  }

  lemma CancelSends(s: Link, conversation: string, inflight: Option<string>)
    requires WireOk(s) && conversation != ""
    ensures var t := Next(s, Cancel(conversation, inflight));
      Wire(t) == Wire(s) + [CancelInflight(conversation, inflight)] && !t.ws.Null?
  {
    var t := SendRaw(s, CancelInflight(conversation, inflight));
    SendRawExtends(s, CancelInflight(conversation, inflight));
    assert Wire(Connect(t)) == Wire(t);
  }

  lemma OpenedSends(s: Link)
    requires s.ws.Connecting? && s.sent == []
    ensures s.pending <= Opened(s).sent && Opened(s).pending == []
  {
    assert [] + s.pending == s.pending;
    ResubscribeSends(Flush(s.(attempt := 0, ws := Open)));
  }

  lemma StepKeepsOrder(s: Link, step: Step)
    requires WireOk(s)
    ensures var t := Next(s, step);
      if step.Closes? || step.Teardown? || step.Remount? then s.pending <= t.pending else Wire(s) <= Wire(t)
  {
    match step {
      case Opens => if s.ws.Connecting? { OpenedSends(s); assert Wire(s) == s.pending; }
      case SnapshotSettles => if s.suspended > 0 { SettledExtends(s); }
      case TimerFires => assert Wire(Connect(s)) == Wire(s);
      case Closes =>
      case Teardown => TornDownWaits(s);
      case Remount(_) => TornDownWaits(s);
      case _ => OperationSends(s, step);
    }
  }

  // In every run: while the socket lasts nothing on the wire is lost or overtaken, and
  // what waits to be sent survives the loss of a socket.
  lemma NothingOvertakes(realtime: bool, steps: seq<Step>, step: Step)
    ensures var s, t := Run(realtime, steps), Run(realtime, steps + [step]);
      if step.Closes? || step.Teardown? || step.Remount? then s.pending <= t.pending else Wire(s) <= Wire(t)
  {
    RunKeepsLink(realtime, steps);
    assert (steps + [step])[..|steps|] == steps;
    StepKeepsOrder(Run(realtime, steps), step);
  }

  lemma TornDownWaits(s: Link)
    ensures s.pending <= TornDown(s).pending
  {
  }

  lemma SettledExtends(s: Link)
    requires WireOk(s) && s.suspended > 0
    ensures Wire(s) <= Wire(Next(s, SnapshotSettles))
  {
    var t := s.(suspended := s.suspended - 1);
    assert Wire(t) == Wire(s);
    ResubscribeExtends(t);
  }

  lemma ResubscribeExtends(s: Link)
    requires WireOk(s)
    ensures Wire(s) <= Wire(Resubscribe(s))
  {
    var a := SendIf(s, s.sidebar, Subscribe(Sidebar));
    var b := ResubscribeFlags(s);
    SendRawExtends(s, Subscribe(Sidebar));
    SendRawExtends(a, Subscribe(Ingest));
    SendAllExtends(b, ConversationSubscriptions(s.conversations));
    assert Wire(s) <= Wire(a) <= Wire(b);
    assert Wire(Resubscribe(s)) == Wire(b) + ConversationSubscriptions(s.conversations);
  }
}
