// Which inflight owns which bubble: the live map is an injective part of the
// historical one, and both name bubbles made by this hook.
module ChatIndex {
  import opened Prelude
  import opened ChatTypes
  import opened ChatModel
  import opened ChatScreen

  predicate SubMap(x: Index) {
    forall i | i in x.assistantOf :: i in x.historical && x.historical[i] == x.assistantOf[i]
  }

  predicate Injective(m: map<InflightId, Id>) {
    forall i, j | i in m && j in m && i != j :: m[i] != m[j]
  }

  // Bubbles are made here; "" never owns one and is never remembered as seen.
  predicate OwnedIds(x: Index, n: nat) {
    && "" !in x.historical && "" !in x.seen
    && forall i | i in x.historical :: x.historical[i].Local? && x.historical[i].n < n
  }

  predicate IndexInv(x: Index, n: nat) { SubMap(x) && Injective(x.historical) && OwnedIds(x, n) }

  predicate ChatIndexInv(st: Chat) { IndexInv(st.index, st.nextId) }

  lemma LiveMapInjective(x: Index, n: nat)
    requires IndexInv(x, n)
    ensures Injective(x.assistantOf)
  {
    forall i, j | i in x.assistantOf && j in x.assistantOf && i != j ensures x.assistantOf[i] != x.assistantOf[j] {
      assert x.historical[i] != x.historical[j];
    }
  }

  lemma IndexLater(x: Index, n: nat, n': nat)
    requires IndexInv(x, n) && n <= n'
    ensures IndexInv(x, n')
  {
  }

  // Forgetting live mappings, or what was seen or finalized, keeps the maps in order.
  lemma FewerMappings(x: Index, y: Index, n: nat)
    requires IndexInv(x, n) && y.historical == x.historical && "" !in y.seen
    requires forall i | i in y.assistantOf :: i in x.assistantOf && y.assistantOf[i] == x.assistantOf[i]
    ensures IndexInv(y, n)
  {
  }

  lemma EnsureIndex(st: Chat, key: Option<InflightId>, forceNew: bool, clock: Clock)
    requires ChatIndexInv(st) && key != Some("")
    ensures ChatIndexInv(Ensure(st, key, forceNew, clock))
  {
    IndexLater(st.index, st.nextId, st.nextId + 1);
    if key.Some? {
      var x := BindKey(st.index, key, EnsuredId(st, key, forceNew));
      assert EnsureTarget(st, key, forceNew).Some? ==> x.historical == st.index.historical;
    }
  }

  // Remembering an inflight, with more ids made since.
  lemma SeeIndex(x: Index, i: InflightId, n: nat, n': nat)
    requires IndexInv(x, n) && n <= n'
    ensures IndexInv(See(x, i), n')
  {
  }

  lemma OnIncrementalIndex(st: Chat, e: Event, clock: Clock)
    requires ChatIndexInv(st) && Incremental(e)
    ensures ChatIndexInv(OnIncremental(st, e, clock))
  {
    if e.inflight !in st.index.finalized && !Mismatch(st, e.inflight) {
      EnsureIndex(st, Key(e.inflight), false, clock);
      var r := Resolve(st, e.inflight, clock);
      SeeIndex(r.index, e.inflight, r.nextId, OnIncremental(st, e, clock).nextId);
    }
  }

  lemma AdoptSnapshotIndex(
    st: Chat, i: InflightId, text: string, think: string, tools: seq<ToolEvent>, startedAt: Stamp,
    command: Option<Meta>, clock: Clock)
    requires ChatIndexInv(st)
    ensures ChatIndexInv(AdoptSnapshot(st, i, text, think, tools, startedAt, command, clock))
  {
    EnsureIndex(st, Key(i), false, clock);
    var r := Ensure(st, Key(i), false, clock);
    ApplyToolsCounts(SnapshotBody(text, think), tools, r.nextId);
    SeeIndex(r.index, i, r.nextId, AdoptSnapshot(st, i, text, think, tools, startedAt, command, clock).nextId);
  }

  lemma OnUserTurnIndex(st: Chat, e: Event, clock: Clock)
    requires ChatIndexInv(st) && e.UserTurn?
    ensures ChatIndexInv(OnUserTurn(st, e, clock))
  {
    if !TurnIgnored(st, e.inflight) {
      var a := AdoptTurn(st, e.inflight);
      FewerMappings(st.index, a.index, a.nextId);
      EnsureIndex(a, Key(e.inflight), false, clock);
      var r := Ensure(a, Key(e.inflight), false, clock);
      IndexLater(r.index, r.nextId, OnUserTurn(st, e, clock).nextId);
    }
  }

  lemma OnFinalIndex(st: Chat, e: Event, clock: Clock)
    requires ChatIndexInv(st) && e.TurnFinal?
    ensures ChatIndexInv(OnFinal(st, e, clock))
  {
    var x := st.(index := Finalize(st.index, e.inflight));
    FewerMappings(st.index, x.index, x.nextId);
    EnsureIndex(x, Key(e.inflight), false, clock);
  }

  lemma RemovePendingIndex(st: Chat, target: Option<InflightId>)
    requires ChatIndexInv(st)
    ensures ChatIndexInv(RemovePending(st, target))
  {
    FewerMappings(st.index, RemovePending(st, target).index, st.nextId);
  }

  lemma HandleWsEventIndex(st: Chat, e: Event, clock: Clock)
    requires ChatIndexInv(st)
    ensures ChatIndexInv(HandleWsEvent(st, e, clock))
  {
    var h := Heard(st, e);
    if e.conversation != st.conversation {
    } else if e.CancelAck? {
      RemovePendingIndex(st, st.cursor.stopInflight);
    } else if e.UserTurn? {
      OnUserTurnIndex(h, e, clock);
    } else if e.InflightSnapshot? {
      AdoptSnapshotIndex(h, e.inflight, e.text, e.think, e.toolEvents, e.startedAt, e.command, clock);
    } else if e.TurnFinal? {
      OnFinalIndex(h, e, clock);
    } else {
      OnIncrementalIndex(h, e, clock);
    }
  }

  lemma SendBeginIndex(st: Chat, text: string, ready: bool, i: InflightId, clock: Clock)
    requires ChatIndexInv(st)
    ensures ChatIndexInv(SendBegin(st, text, ready, i, clock))
  {
    if !Blank(text) && !st.cursor.status.Sending? && ready {
      var t := ResetInflight(Touch(st));
      IndexLater(t.index, t.nextId, t.nextId + 1);
      var u := SendPrepared(st, text, i, clock);
      FewerMappings(t.index, u.index, u.nextId);
      EnsureIndex(u, Key(i), true, clock);
    }
  }

  lemma RestoreIndex(st: Chat, conversation: string, s: Snapshot, clock: Clock)
    requires ChatIndexInv(st)
    ensures ChatIndexInv(HydrateSnapshot(st, conversation, s, clock))
  {
    AdoptSnapshotIndex(Rebase(st, conversation, s.seqNo), s.inflight, s.text, s.think, s.toolEvents, s.startedAt,
        s.command, clock);
  }

  lemma StepKeepsIndex(st: Chat, step: Step)
    requires ChatIndexInv(st)
    ensures ChatIndexInv(Next(st, step))
  {
    match step {
      case Ws(e, clock) => HandleWsEventIndex(st, e, clock);
      case Begin(text, ready, i, clock) => SendBeginIndex(st, text, ready, i, clock);
      case Restore(conversation, s, clock) => RestoreIndex(st, conversation, s, clock);
      case _ => LocalStepIndex(st, step);
    }
  }

  lemma LocalStepIndex(st: Chat, step: Step)
    requires ChatIndexInv(st) && !step.Ws? && !step.Begin? && !step.Restore?
    ensures ChatIndexInv(Next(st, step))
  {
    var after := Next(st, step);
    LocalStepMaps(st, step);
    IndexLater(st.index, st.nextId, after.nextId);
    if after.index != NO_INDEX { FewerMappings(st.index, after.index, after.nextId); }
  }

  // Local steps forget mappings, some or all, and make none.
  lemma LocalStepMaps(st: Chat, step: Step)
    requires !step.Ws? && !step.Begin? && !step.Restore?
    ensures var after := Next(st, step);
      && after.nextId >= st.nextId
      && (after.index == NO_INDEX
          || (&& after.index.historical == st.index.historical && after.index.seen <= st.index.seen
              && (after.index.assistantOf == st.index.assistantOf || after.index.assistantOf == map[])))
  {
    if step.History? { HistoryMaps(st, step.conversation, step.history, step.mode); }
  }

  lemma HistoryMaps(st: Chat, conversation: string, history: seq<Entry>, mode: Mode)
    ensures var after := HydrateHistory(st, conversation, history, mode);
      && after.nextId == st.nextId
      && (after.index == NO_INDEX
          || after.index == st.index || after.index == st.index.(assistantOf := map[]))
  {
  }

  lemma HistoryIndex(st: Chat, conversation: string, history: seq<Entry>, mode: Mode)
    requires ChatIndexInv(st)
    ensures ChatIndexInv(HydrateHistory(st, conversation, history, mode))
  {
    var after := HydrateHistory(st, conversation, history, mode);
    HistoryMaps(st, conversation, history, mode);
    if after.index != NO_INDEX { FewerMappings(st.index, after.index, st.nextId); }
  }

  // In every reachable state the inflight-to-bubble map is an injective part of
  // the historical map, which is injective too.
  lemma {:induction false} RunKeepsIndex(conversation: string, steps: seq<Step>)
    ensures ChatIndexInv(Run(conversation, steps))
    ensures Injective(Run(conversation, steps).index.assistantOf)
  {
    if steps != [] {
      var n := |steps| - 1;
      RunKeepsIndex(conversation, steps[..n]);
      StepKeepsIndex(Run(conversation, steps[..n]), steps[n]);
    }
    LiveMapInjective(Run(conversation, steps).index, Run(conversation, steps).nextId);
  }
}
