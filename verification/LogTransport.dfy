// client/src/logging/transport.ts: the batching, retrying queue that forwards
// client logs. flushQueue suspends at its fetch; a run is a sequence of the
// atomic pieces between suspensions.
module LogTransport {
  import opened Prelude

  const MAX_BATCH := 10
  const BACKOFF: seq<nat> := [500, 1000, 2000, 4000]

  // "size" is the length of the entry's JSON text.
  datatype LogEntry = LogEntry(text: string, size: nat)

  // What flushQueue reads of its surroundings when it starts.
  datatype Env = Env(testMode: bool, forwardEnabled: bool, configBlocked: bool, online: bool) {
    predicate Forwards() { !testMode && forwardEnabled && !configBlocked }
  }

  // queue, batch, inFlight and backoffIndex are the program's state; the other
  // fields record what happened.
  datatype Transport = Transport(
    queue: seq<LogEntry>, batch: seq<LogEntry>, inFlight: bool, backoffIndex: nat,
    accepted: seq<LogEntry>,  // entries that passed the size check, in order of arrival
    acked: seq<LogEntry>,     // entries of the batches the server answered with success
    replies: seq<bool>,       // outcome of every POST so far
    delays: seq<nat>,         // every retry delay scheduled so far
    timers: nat,              // retry timers still pending
    parked: bool)             // the last flush of a waiting queue found the browser offline

  const EMPTY := Transport([], [], false, 0, [], [], [], [], 0, false)

  datatype Event =
    | SendLogs(entries: seq<LogEntry>, maxBytes: nat, env: Env)
    | TimerFires(env: Env)
    | PostSettles(ok: bool, env: Env)

  function Min(a: nat, b: nat): nat { if a < b then a else b }

  function Fitting(entries: seq<LogEntry>, maxBytes: nat): seq<LogEntry> {
    if entries == [] then []
    else
      var init := Fitting(entries[..|entries| - 1], maxBytes);
      var last := entries[|entries| - 1];
      if last.size <= maxBytes then init + [last] else init
  }

  function Flush(t: Transport, env: Env): Transport {
    if t.inFlight || t.queue == [] then t
    else if !env.Forwards() then t.(queue := [], parked := false)
    else if !env.online then t.(parked := true)
    else
      var n := Min(MAX_BATCH, |t.queue|);
      t.(batch := t.queue[..n], queue := t.queue[n..], inFlight := true, parked := false)
  }

  function Enqueue(t: Transport, entries: seq<LogEntry>, maxBytes: nat): Transport {
    var fit := Fitting(entries, maxBytes);
    t.(queue := t.queue + fit, accepted := t.accepted + fit)
  }

  function Settle(t: Transport, ok: bool): Transport {
    if ok then
      t.(backoffIndex := 0, inFlight := false, batch := [], acked := t.acked + t.batch, replies := t.replies + [true])
    else
      t.(queue := t.batch + t.queue, batch := [], inFlight := false, backoffIndex := t.backoffIndex + 1,
         delays := t.delays + [BACKOFF[Min(t.backoffIndex, |BACKOFF| - 1)]], timers := t.timers + 1,
         replies := t.replies + [false])
  }

  // What an event does before it flushes; one that cannot happen in a state does nothing.
  function Arrive(t: Transport, e: Event): Transport {
    match e
    case SendLogs(entries, maxBytes, env) => Enqueue(t, entries, maxBytes)
    case TimerFires(env) => if t.timers > 0 then t.(timers := t.timers - 1) else t
    case PostSettles(ok, env) => if t.inFlight then Settle(t, ok) else t
  }

  predicate Flushes(t: Transport, e: Event) {
    match e
    case SendLogs(_, _, _) => true
    case TimerFires(_) => t.timers > 0
    case PostSettles(ok, _) => t.inFlight && ok
  }

  function Step(t: Transport, e: Event): Transport {
    if Flushes(t, e) then Flush(Arrive(t, e), e.env) else Arrive(t, e)
  }

  function Run(events: seq<Event>): Transport {
    if events == [] then EMPTY
    else Step(Run(events[..|events| - 1]), events[|events| - 1])
  }

  // ---- what is promised ----

  // The number of failures since the last success.
  function TrailingFailures(replies: seq<bool>): nat {
    if replies == [] || replies[|replies| - 1] then 0
    else 1 + TrailingFailures(replies[..|replies| - 1])
  }

  // How long the n-th failure in a row waits.
  function PromisedDelay(n: nat): nat { if n <= 1 then 500 else if n == 2 then 1000 else if n == 3 then 2000 else 4000 }

  // Every failure waits as long as promised; a success waits for nothing.
  function PromisedDelays(replies: seq<bool>): seq<nat> {
    if replies == [] then []
    else
      var earlier := PromisedDelays(replies[..|replies| - 1]);
      var n := TrailingFailures(replies);
      if n == 0 then earlier else earlier + [PromisedDelay(n)]
  }

  ghost predicate OnePost(t: Transport) {
    if t.inFlight then 1 <= |t.batch| <= 10 else t.batch == []
  }

  ghost predicate RetriesAsPromised(t: Transport) {
    t.backoffIndex == TrailingFailures(t.replies) && t.delays == PromisedDelays(t.replies)
  }

  // A waiting queue is never forgotten.
  ghost predicate Remembered(t: Transport) {
    t.queue != [] && !t.inFlight ==> (t.timers > 0 || t.parked)
  }

  ghost predicate WellFormed(t: Transport) {
    OnePost(t) && RetriesAsPromised(t) && Remembered(t)
  }

  function Outstanding(t: Transport): seq<LogEntry> {
    t.acked + t.batch + t.queue
  }

  // The event reaches the branch of flushQueue that empties a waiting queue.
  predicate Discards(t: Transport, e: Event) {
    && Flushes(t, e) && (e.env.testMode || !e.env.forwardEnabled || e.env.configBlocked)
    && !Arrive(t, e).inFlight && Arrive(t, e).queue != []
  }

  predicate NeverDiscards(events: seq<Event>) {
    forall k | 0 <= k < |events| :: !Discards(Run(events[..k]), events[k])
  }

  lemma FlushKeeps(t: Transport, env: Env)
    requires OnePost(t)
    ensures OnePost(Flush(t, env)) && Remembered(Flush(t, env))
    ensures RetriesAsPromised(t) ==> RetriesAsPromised(Flush(t, env))
  {
  }

  lemma FlushConserves(t: Transport, env: Env)
    requires OnePost(t)
    ensures Outstanding(Flush(t, env)) <= Outstanding(t)
    ensures Outstanding(Flush(t, env)) == Outstanding(t)
       <==> !(!t.inFlight && t.queue != [] && !env.Forwards())
    ensures Flush(t, env).accepted == t.accepted
  {
    if !t.inFlight && t.queue != [] {
      var n := Min(MAX_BATCH, |t.queue|);
      assert t.queue == t.queue[..n] + t.queue[n..];
      assert t.acked + t.batch == t.acked;
      if env.Forwards() && env.online {
        assert Outstanding(Flush(t, env)) == t.acked + t.queue[..n] + t.queue[n..];
      } else if !env.Forwards() {
        assert Outstanding(Flush(t, env)) == t.acked;
      }
    }
  }

  lemma SettleRetries(t: Transport, ok: bool)
    requires RetriesAsPromised(t)
    ensures RetriesAsPromised(Settle(t, ok))
  {
    var replies := t.replies + [ok];
    assert replies[..|replies| - 1] == t.replies;
    assert PromisedDelays(replies) ==
      if ok then t.delays else t.delays + [PromisedDelay(t.backoffIndex + 1)];
  }

  lemma ArriveKeeps(t: Transport, e: Event)
    requires WellFormed(t)
    ensures OnePost(Arrive(t, e)) && RetriesAsPromised(Arrive(t, e))
    ensures !Flushes(t, e) ==> Remembered(Arrive(t, e))
  {
    if e.PostSettles? && t.inFlight {
      SettleRetries(t, e.ok);
    }
  }

  lemma ArriveConserves(t: Transport, e: Event)
    requires WellFormed(t) && Subsequence(Outstanding(t), t.accepted)
    ensures Subsequence(Outstanding(Arrive(t, e)), Arrive(t, e).accepted)
    ensures Lost(Arrive(t, e)) == Lost(t)
  {
    match e {
      case SendLogs(entries, maxBytes, env) =>
        var fit := Fitting(entries, maxBytes);
        assert Outstanding(Arrive(t, e)) == Outstanding(t) + fit;
        SubsequenceAppend(Outstanding(t), t.accepted, fit);
      case TimerFires(env) =>
      case PostSettles(ok, env) =>
        if t.inFlight {
          assert Outstanding(Settle(t, ok)) == t.acked + t.batch + t.queue;
        }
    }
  }

  lemma StepKeeps(t: Transport, e: Event)
    requires WellFormed(t)
    ensures WellFormed(Step(t, e))
  {
    ArriveKeeps(t, e);
    FlushKeeps(Arrive(t, e), e.env);
  }

  // "lost" entries are accepted but neither acknowledged, in flight nor queued.
  function Lost(t: Transport): int {
    |t.accepted| - |Outstanding(t)|
  }

  lemma StepConserves(t: Transport, e: Event)
    requires WellFormed(t) && Subsequence(Outstanding(t), t.accepted)
    ensures Subsequence(Outstanding(Step(t, e)), Step(t, e).accepted)
    ensures if Discards(t, e) then Lost(Step(t, e)) > Lost(t) else Lost(Step(t, e)) == Lost(t)
  {
    ArriveKeeps(t, e);
    ArriveConserves(t, e);
    var before, after := Outstanding(Arrive(t, e)), Outstanding(Step(t, e));
    FlushConserves(Arrive(t, e), e.env);
    assert before == after + before[|after|..];
    SubsequencePrefix(after, before[|after|..], Arrive(t, e).accepted);
    assert |before| == |after| ==> before == after;
  }

  // Every reachable state: one POST of 1 to 10 entries at most is outstanding,
  // the retry delays are the promised ones, a waiting queue has a timer or was
  // left by an offline browser, and acknowledged entries, the batch in flight and
  // the queue are the accepted entries in order, some possibly missing.
  lemma {:induction false} RunKeeps(events: seq<Event>)
    ensures WellFormed(Run(events))
    ensures Subsequence(Outstanding(Run(events)), Run(events).accepted)
    ensures Lost(Run(events)) == 0 <==> NeverDiscards(events)
  {
    if events != [] {
      var init, last := events[..|events| - 1], events[|events| - 1];
      RunKeeps(init);
      SubsequenceLength(Outstanding(Run(init)), Run(init).accepted);
      StepKeeps(Run(init), last);
      StepConserves(Run(init), last);
      assert forall k | 0 <= k < |init| :: events[..k] == init[..k];
      assert NeverDiscards(events) <==> NeverDiscards(init) && !Discards(Run(init), last);
    }
  }

  // Conservation, exactly when it holds: nothing is missing, repeated or
  // reordered if and only if no flush met a waiting queue with forwarding off.
  lemma RunConserves(events: seq<Event>)
    ensures Outstanding(Run(events)) == Run(events).accepted <==> NeverDiscards(events)
  {
    RunKeeps(events);
    SubsequenceLength(Outstanding(Run(events)), Run(events).accepted);
  }

  // ---- what is accepted, and when it is posted ----

  lemma {:induction false} FittingCounts(entries: seq<LogEntry>, maxBytes: nat, x: LogEntry)
    ensures Subsequence(Fitting(entries, maxBytes), entries)
    ensures multiset(Fitting(entries, maxBytes))[x] == if x.size <= maxBytes then multiset(entries)[x] else 0
  {
    if entries != [] {
      var init, last := entries[..|entries| - 1], entries[|entries| - 1];
      FittingCounts(init, maxBytes, x);
      assert entries == init + [last];
      SubsequenceSnoc(Fitting(init, maxBytes), init, last);
    }
  }

  // A call accepts the entries of at most maxBytes, in their order and as often as
  // they were passed, and no other.
  lemma SendAccepts(t: Transport, entries: seq<LogEntry>, maxBytes: nat, env: Env, x: LogEntry)
    ensures var after := Step(t, SendLogs(entries, maxBytes, env)).accepted;
      && t.accepted <= after && Subsequence(after[|t.accepted|..], entries)
      && multiset(after[|t.accepted|..])[x] == if x.size <= maxBytes then multiset(entries)[x] else 0
  {
    FittingCounts(entries, maxBytes, x);
    var after := Step(t, SendLogs(entries, maxBytes, env)).accepted;
    assert after == t.accepted + Fitting(entries, maxBytes);
    assert after[|t.accepted|..] == Fitting(entries, maxBytes);
  }

  // How often an entry was passed to calls whose limit it meets.
  function Passed(events: seq<Event>, x: LogEntry): nat {
    if events == [] then 0
    else
      var earlier, e := Passed(events[..|events| - 1], x), events[|events| - 1];
      if e.SendLogs? && x.size <= e.maxBytes then earlier + multiset(e.entries)[x] else earlier
  }

  lemma {:induction false} AcceptedIsPassed(events: seq<Event>, x: LogEntry)
    ensures multiset(Run(events).accepted)[x] == Passed(events, x)
  {
    if events != [] {
      var init, e := events[..|events| - 1], events[|events| - 1];
      AcceptedIsPassed(init, x);
      if e.SendLogs? {
        SendAccepts(Run(init), e.entries, e.maxBytes, e.env, x);
        var before, after := Run(init).accepted, Run(events).accepted;
        assert after == before + after[|before|..];
      }
    }
  }

  // With forwarding on throughout (no test mode, no blocking configuration) every
  // entry passed within its limit is acknowledged, in flight or queued, as often as
  // it was passed.
  lemma RunDelivers(events: seq<Event>, x: LogEntry)
    requires forall e | e in events :: e.env.forwardEnabled && !e.env.testMode && !e.env.configBlocked
    ensures multiset(Outstanding(Run(events)))[x] == Passed(events, x)
  {
    AcceptedIsPassed(events, x);
    assert NeverDiscards(events) by {
      forall k | 0 <= k < |events| ensures !Discards(Run(events[..k]), events[k]) { assert events[k] in events; }
    }
    RunConserves(events);
  }

  // A call, a retry timer and a success each leave nothing waiting without a POST when
  // the browser is online; the POST takes the first entries waiting, at most ten.
  lemma WaitingIsPosted(t: Transport, e: Event)
    requires e.env.forwardEnabled && !e.env.testMode && !e.env.configBlocked && e.env.online
    requires e.SendLogs? || (e.TimerFires? && t.timers > 0) || (e.PostSettles? && e.ok && t.inFlight)
    requires WellFormed(t)
    ensures Step(t, e).queue != [] ==> Step(t, e).inFlight
    ensures t.accepted <= Step(t, e).accepted
    ensures var waiting := t.queue + Step(t, e).accepted[|t.accepted|..];
      if t.inFlight && !e.PostSettles? then
        Step(t, e).inFlight && Step(t, e).batch == t.batch && Step(t, e).queue == waiting
      else
        && (Step(t, e).inFlight <==> waiting != []) && Step(t, e).batch + Step(t, e).queue == waiting
        && |Step(t, e).batch| == if |waiting| < 10 then |waiting| else 10
  {
    var fit := if e.SendLogs? then Fitting(e.entries, e.maxBytes) else [];
    assert Step(t, e).accepted == t.accepted + fit;
    assert Step(t, e).accepted[|t.accepted|..] == fit;
    assert t.queue + [] == t.queue;
  }

  // A failure puts the batch back in front and posts nothing; its retry timer does.
  // Offline nothing is posted either, and everything waits.
  lemma FailureWaits(t: Transport, e: Event)
    requires (e.PostSettles? && !e.ok && t.inFlight)
          || (e.env.forwardEnabled && !e.env.testMode && !e.env.configBlocked && !e.env.online && !t.inFlight)
    ensures t.accepted <= Step(t, e).accepted && !Step(t, e).inFlight
    ensures Step(t, e).queue
         == (if e.PostSettles? && t.inFlight then t.batch else []) + t.queue + Step(t, e).accepted[|t.accepted|..]
    ensures e.PostSettles? && t.inFlight ==> Step(t, e).timers == t.timers + 1
  {
    var fit := if e.SendLogs? then Fitting(e.entries, e.maxBytes) else [];
    assert Step(t, e).accepted == t.accepted + fit;
    assert Step(t, e).accepted[|t.accepted|..] == fit;
    assert [] + t.queue == t.queue && t.queue + [] == t.queue;
  }

  class Forwarder {
    var queue: seq<LogEntry>
    var backoffIndex: nat
    var inFlight: bool
    var batch: seq<LogEntry>  // the batch a suspended flushQueue is waiting on
    ghost var accepted: seq<LogEntry>
    ghost var acked: seq<LogEntry>
    ghost var replies: seq<bool>
    ghost var delays: seq<nat>
    ghost var timers: nat
    ghost var parked: bool

    ghost function State(): Transport reads this {
      Transport(queue, batch, inFlight, backoffIndex, accepted, acked, replies, delays, timers, parked)
    }

    constructor ()
      ensures State() == EMPTY
    {
      queue, backoffIndex, inFlight, batch := [], 0, false, [];
      accepted, acked, replies, delays, timers, parked := [], [], [], [], 0, false;
    }

    // flushQueue up to its fetch.
    method FlushQueue(env: Env)
      modifies this
      ensures State() == Flush(old(State()), env)
    {
      if inFlight || |queue| == 0 { return; }
      if env.testMode {
        queue, parked := [], false;
        return;
      }
      if !env.forwardEnabled {
        queue, parked := [], false;
        return;
      }
      if env.configBlocked {
        queue, parked := [], false;
        return;
      }
      if !env.online {
        parked := true;
        return;
      }
      var n := Min(MAX_BATCH, |queue|);
      batch, queue := queue[..n], queue[n..];
      inFlight, parked := true, false;
    }

    // flushQueue resumed by the answer to its fetch.
    method Settled(ok: bool, env: Env) returns (delay: Option<nat>)
      requires inFlight
      modifies this
      ensures State() == Step(old(State()), PostSettles(ok, env))
      ensures delay == if ok then None else Some(PromisedDelay(old(backoffIndex) + 1))
    {
      delay := None;
      if ok {
        backoffIndex := 0;
        acked, replies := acked + batch, replies + [true];
      } else {
        queue := batch + queue;
        delay := Some(BACKOFF[Min(backoffIndex, |BACKOFF| - 1)]);
        backoffIndex := backoffIndex + 1;
        delays, timers, replies := delays + [delay.value], timers + 1, replies + [false];
      }
      batch, inFlight := [], false;
      if |queue| > 0 && backoffIndex == 0 {
        FlushQueue(env);
      }
    }

    method RetryTimer(env: Env)
      requires timers > 0
      modifies this
      ensures State() == Step(old(State()), TimerFires(env))
    {
      timers := timers - 1;
      FlushQueue(env);
    }

    method Send(entries: seq<LogEntry>, maxBytes: nat, env: Env)
      modifies this
      ensures State() == Step(old(State()), SendLogs(entries, maxBytes, env))
    {
      var i := 0;
      while i < |entries|
        invariant 0 <= i <= |entries|
        invariant State() == Enqueue(old(State()), entries[..i], maxBytes)
      {
        assert entries[..i + 1][..i] == entries[..i];
        if entries[i].size <= maxBytes {
          queue := queue + [entries[i]];
          accepted := accepted + [entries[i]];
        }
        i := i + 1;
      }
      assert entries[..i] == entries;
      FlushQueue(env);
    }
  }
}
