// client/src/hooks/useChatStream.ts: what each operation of the hook does to its
// refs, with React state updates taking effect at once.
module ChatModel {
  import opened Prelude
  import opened ChatTypes

  // ---- updateMessages ----

  function Ids(ms: seq<Message>): set<Id> { set m | m in ms :: m.id }

  predicate Confirmed(m: Message) { m.role.User? && !m.optimistic && m.body.text != "" }

  predicate Echo(m: Message) { m.role.User? && m.optimistic }

  function ConfirmedContents(ms: seq<Message>): set<string> {
    set m | m in ms && Confirmed(m) :: m.body.text
  }

  function DropEchoes(ms: seq<Message>, contents: set<string>): seq<Message> {
    if ms == [] then []
    else
      var init, last := DropEchoes(ms[..|ms| - 1], contents), ms[|ms| - 1];
      if Echo(last) && last.body.text in contents then init else init + [last]
  }

  function Collapse(ms: seq<Message>): seq<Message> { DropEchoes(ms, ConfirmedContents(ms)) }

  function Prune(s: Screen, ms: seq<Message>): Screen {
    var tracked := s.tracked * Ids(ms);
    Screen(ms, tracked, map i | i in s.trackedBy && s.trackedBy[i] in tracked :: s.trackedBy[i])
  }

  function Show(s: Screen, ms: seq<Message>): Screen { Prune(s, Collapse(ms)) }

  function UntrackAll(s: Screen, ids: set<Id>): Screen {
    s.(tracked := s.tracked - ids,
       trackedBy := map i | i in s.trackedBy && s.trackedBy[i] !in ids :: s.trackedBy[i])
  }

  // ---- bubbles ----

  datatype Patch = Patch(
    body: Option<Body>, streamStatus: Option<StreamStatus>, createdAt: Option<Stamp>,
    command: Option<Option<Meta>>, kind: Option<Kind>, usage: Option<Meta>, timing: Option<Meta>)

  const NO_PATCH := Patch(None, None, None, None, None, None, None)

  function Or<T>(a: Option<T>, b: T): T { if a.Some? then a.value else b }

  function Patched(m: Message, p: Patch): Message {
    m.(body := Or(p.body, m.body),
       streamStatus := if p.streamStatus.Some? then p.streamStatus else m.streamStatus,
       createdAt := Or(p.createdAt, m.createdAt),
       command := Or(p.command, m.command),
       kind := if p.kind.Some? then p.kind else m.kind,
       usage := if p.usage.Some? then p.usage else m.usage,
       timing := if p.timing.Some? then p.timing else m.timing)
  }

  function Edit(ms: seq<Message>, id: Id, p: Patch): (r: seq<Message>)
    ensures |r| == |ms|
    ensures forall k | 0 <= k < |ms| :: r[k] == if ms[k].id == id then Patched(ms[k], p) else ms[k]
  {
    seq(|ms|, k requires 0 <= k < |ms| => if ms[k].id == id then Patched(ms[k], p) else ms[k])
  }

  // syncAssistantMessage; a patch without a body is the useRefs === false form.
  function Sync(st: Chat, id: Id, p: Patch): Chat {
    st.(screen := Show(st.screen, Edit(st.screen.messages, id, p)))
  }

  function NewBubble(id: Id, stamp: Stamp): Message {
    Message(id, Assistant, Body("", "", [Text("")], [], [], []), false, Some(Processing), stamp, None, None, None, None)
  }

  // The bubble ensureAssistantMessage reuses, if any.
  function EnsureTarget(st: Chat, key: Option<InflightId>, forceNew: bool): Option<Id> {
    var ms := st.screen.messages;
    if key.Some? then
      if forceNew || key.value !in st.index.assistantOf then None else Some(st.index.assistantOf[key.value])
    else if st.cursor.active.Some? then st.cursor.active
    else if ms != [] && ms[|ms| - 1].role.Assistant? && ms[|ms| - 1].streamStatus == Some(Processing) then
      Some(ms[|ms| - 1].id)
    else None
  }

  function EnsuredId(st: Chat, key: Option<InflightId>, forceNew: bool): Id {
    Or(EnsureTarget(st, key, forceNew), Local(st.nextId))
  }

  function BindKey(x: Index, key: Option<InflightId>, id: Id): Index {
    if key.None? then x
    else x.(assistantOf := x.assistantOf[key.value := id], historical := x.historical[key.value := id])
  }

  function Ensure(st: Chat, key: Option<InflightId>, forceNew: bool, clock: Clock): Chat {
    var id := EnsuredId(st, key, forceNew);
    var bound := st.(index := BindKey(st.index, key, id), cursor := st.cursor.(active := Some(id)));
    if EnsureTarget(st, key, forceNew).Some? then bound
    else
      bound.(live := Body("", "", [Text("")], [], [], []), nextId := st.nextId + 1,
             screen := Show(st.screen, st.screen.messages + [NewBubble(id, clock.stamp)]))
  }

  // ---- tool events ----

  predicate HasTool(tools: seq<ToolCall>, id: Id) { exists k :: 0 <= k < |tools| && tools[k].id == id }

  function FindTool(tools: seq<ToolCall>, id: Id): Option<ToolCall> {
    if tools == [] then None
    else if tools[0].id == id then Some(tools[0])
    else FindTool(tools[1..], id)
  }

  // Map.set: an existing key keeps its place.
  function PutTool(tools: seq<ToolCall>, tool: ToolCall): seq<ToolCall> {
    if tools == [] then [tool]
    else if tools[0].id == tool.id then [tool] + tools[1..]
    else [tools[0]] + PutTool(tools[1..], tool)
  }

  predicate IsToolSegment(s: Segment, id: Id) { s.Tool? && s.tool.id == id }

  predicate HasSegment(segments: seq<Segment>, id: Id) {
    exists k :: 0 <= k < |segments| && IsToolSegment(segments[k], id)
  }

  function ReplaceTool(segments: seq<Segment>, tool: ToolCall): (r: seq<Segment>)
    ensures |r| == |segments|
    ensures forall k | 0 <= k < |r| :: r[k] == if IsToolSegment(segments[k], tool.id) then Tool(tool) else segments[k]
  {
    seq(|segments|, k requires 0 <= k < |segments| =>
        if IsToolSegment(segments[k], tool.id) then Tool(tool) else segments[k])
  }

  function CallId(e: ToolEvent, made: Id): Id { if e.callId.Some? then Given(e.callId.value) else made }

  function ToolOf(e: ToolEvent, id: Id, existing: Option<ToolCall>): ToolCall {
    match e
    case ToolRequest(_, name, parameters, stage) => ToolCall(id, name, Requesting, None, parameters, stage, None, None)
    case ToolResult(_, name, parameters, stage, payload, errorTrimmed, errorFull, _) =>
      ToolCall(id, if name.None? && existing.Some? then existing.value.name else name,
               if stage == Some("error") || errorTrimmed.Some? || errorFull.Some? then ToolError else ToolDone,
               payload, parameters, stage, errorTrimmed, errorFull)
  }

  // A request keeps what an earlier result left under the same id.
  function Stored(e: ToolEvent, tool: ToolCall, existing: Option<ToolCall>): ToolCall {
    if e.ToolRequest? && existing.Some? then
      tool.(payload := existing.value.payload, errorTrimmed := existing.value.errorTrimmed,
            errorFull := existing.value.errorFull)
    else tool
  }

  function ApplyTool(live: Body, e: ToolEvent, made: Id): Body {
    var id := CallId(e, made);
    var existing := FindTool(live.tools, id);
    var tool := ToolOf(e, id, existing);
    var tools := PutTool(live.tools, Stored(e, tool, existing));
    var segments :=
      if !HasSegment(live.segments, id) then live.segments + [Tool(tool), Text("")]
      else if e.ToolRequest? then live.segments
      else ReplaceTool(live.segments, tool);
    var citations := if e.ToolResult? && e.citations != [] then e.citations else live.citations;
    live.(tools := tools, segments := segments, citations := citations)
  }

  function IdsMade(e: ToolEvent): nat { if e.callId.None? then 1 else 0 }

  function ApplyTools(live: Body, events: seq<ToolEvent>, next: nat): (Body, nat) {
    if events == [] then (live, next)
    else
      var init := ApplyTools(live, events[..|events| - 1], next);
      var e := events[|events| - 1];
      (ApplyTool(init.0, e, Local(init.1)), init.1 + IdsMade(e))
  }

  function SnapshotBody(text: string, think: string): Body { Body(text, think, [Text(text)], [], [], []) }

  // ---- transcript events ----

  function AppendText(segments: seq<Segment>, delta: string): seq<Segment> {
    var n := |segments| - 1;
    if segments != [] && segments[n].Text? then segments[..n] + [Text(segments[n].content + delta)]
    else segments + [Text(delta)]
  }

  // How an incremental event changes the live refs.
  function Advance(live: Body, e: Event, made: Id): Body {
    match e
    case AssistantDelta(_, _, _, delta) =>
      live.(text := live.text + delta, segments := AppendText(live.segments, delta))
    case AnalysisDelta(_, _, _, delta) => live.(think := live.think + delta)
    case StreamWarning(_, _, _, warning) =>
      if warning == "" || warning in live.warnings then live else live.(warnings := live.warnings + [warning])
    case ToolEventMessage(_, _, _, event) => ApplyTool(live, event, made)
    case _ => live
  }

  predicate Incremental(e: Event) { e.AssistantDelta? || e.AnalysisDelta? || e.StreamWarning? || e.ToolEventMessage? }

  predicate Mismatch(st: Chat, i: InflightId) { st.cursor.inflight.Some? && st.cursor.inflight.value != i }

  // A user turn or snapshot of an inflight already seen, while another is current.
  predicate StaleReplay(st: Chat, i: InflightId) { Mismatch(st, i) && i in st.index.seen }

  function See(x: Index, i: InflightId): Index { if i == "" then x else x.(seen := x.seen + {i}) }

  // preMappedAssistantId ?? ensureAssistantMessage(...)
  function Resolve(st: Chat, i: InflightId, clock: Clock): Chat {
    if i in st.index.assistantOf then st else Ensure(st, Key(i), false, clock)
  }

  function ResolvedId(st: Chat, i: InflightId): Id {
    if i in st.index.assistantOf then st.index.assistantOf[i] else EnsuredId(st, Key(i), false)
  }

  // Inflight e.inflight is current, in bubble "id".
  function Absorb(r: Chat, e: Event, id: Id): Chat
    requires Incremental(e)
  {
    var live := Advance(r.live, e, Local(r.nextId));
    Sync(r.(index := See(r.index, e.inflight), live := live,
            cursor := r.cursor.(inflight := Some(e.inflight), streaming := true),
            nextId := r.nextId + if e.ToolEventMessage? then IdsMade(e.event) else 0),
         id, NO_PATCH.(body := Some(live), streamStatus := Some(Processing)))
  }

  function OnIncremental(st: Chat, e: Event, clock: Clock): Chat
    requires Incremental(e)
  {
    if e.inflight in st.index.finalized || Mismatch(st, e.inflight) then st
    else Absorb(Resolve(st, e.inflight, clock), e, ResolvedId(st, e.inflight))
  }

  function StartedPatch(live: Body, startedAt: Stamp, command: Option<Meta>): Patch {
    NO_PATCH.(body := Some(live), streamStatus := Some(Processing),
             createdAt := if startedAt.ms.Some? then Some(startedAt) else None, command := Some(command))
  }

  // Adopting inflight i with the state a snapshot carries.
  function AdoptSnapshot(
    st: Chat, i: InflightId, text: string, think: string, tools: seq<ToolEvent>, startedAt: Stamp,
    command: Option<Meta>, clock: Clock): Chat
  {
    var r := Ensure(st, Key(i), false, clock);
    var applied := ApplyTools(SnapshotBody(text, think), tools, r.nextId);
    Sync(r.(index := See(r.index, i), live := applied.0, nextId := applied.1,
            cursor := r.cursor.(inflight := Some(i), streaming := true)),
         EnsuredId(st, Key(i), false), StartedPatch(applied.0, startedAt, command))
  }

  function OnSnapshot(st: Chat, e: Event, clock: Clock): Chat
    requires e.InflightSnapshot?
  {
    if e.inflight in st.index.finalized || StaleReplay(st, e.inflight) then st
    else AdoptSnapshot(st, e.inflight, e.text, e.think, e.toolEvents, e.startedAt, e.command, clock)
  }

  // ---- user turns ----

  const HYDRATION_WINDOW := 30 * 60 * 1000
  const RECENT_WINDOW := 60000

  function Abs(n: int): nat { if n < 0 then -n else n }

  predicate WithinHydrationWindow(a: Stamp, b: Stamp) {
    a.ms.Some? && b.ms.Some? && Abs(a.ms.value - b.ms.value) <= HYDRATION_WINDOW
  }

  predicate Recent(stamp: Stamp, now: int) { stamp.ms.Some? && now - stamp.ms.value <= RECENT_WINDOW }

  function FindId(ms: seq<Message>, id: Id): (k: int)
    ensures -1 <= k < |ms|
    ensures k >= 0 ==> ms[k].id == id
    ensures forall j | 0 <= j < (if k < 0 then |ms| else k) :: ms[j].id != id
  {
    if ms == [] then -1
    else
      var k := FindId(ms[..|ms| - 1], id);
      if k >= 0 then k else if ms[|ms| - 1].id == id then |ms| - 1 else -1
  }

  // The backward scans look at the last eight messages.
  function ScanFloor(ms: seq<Message>): int { if |ms| >= 8 then |ms| - 8 else 0 }

  // The nearest optimistic user message at or before "from".
  function LatestEcho(ms: seq<Message>, from: int, floor: int): (k: int)
    requires 0 <= floor && from < |ms|
    ensures k == -1 || (floor <= k <= from && Echo(ms[k]))
    decreases from
  {
    if from < floor then -1
    else if Echo(ms[from]) then from
    else LatestEcho(ms, from - 1, floor)
  }

  predicate SameTurn(m: Message, content: string, createdAt: Stamp, now: int) {
    && m.role.User? && m.body.text == content
    && (m.optimistic || WithinHydrationWindow(m.createdAt, createdAt) || Recent(m.createdAt, now))
  }

  function LatestSameTurn(ms: seq<Message>, from: int, floor: int, content: string, createdAt: Stamp,
      now: int): (k: int)
    requires 0 <= floor && from < |ms|
    ensures k == -1 || (floor <= k <= from && SameTurn(ms[k], content, createdAt, now))
    decreases from
  {
    if from < floor then -1
    else if SameTurn(ms[from], content, createdAt, now) then from
    else LatestSameTurn(ms, from - 1, floor, content, createdAt, now)
  }

  // What a user turn does to the message list.
  datatype Turn = Keep | ConfirmAt(index: nat, untrack: bool) | Append

  // Without a bound message: a recent optimistic one, or the last that is the same turn.
  function PlanUnbound(ms: seq<Message>, content: string, createdAt: Stamp, now: int): (t: Turn)
    ensures t.ConfirmAt? ==> t.index < |ms|
  {
    var n := LatestEcho(ms, |ms| - 1, ScanFloor(ms));
    if n >= 0 && Recent(ms[n].createdAt, now) && ms[n].body.text == content then ConfirmAt(n, true)
    else
      var j := LatestSameTurn(ms, |ms| - 1, ScanFloor(ms), content, createdAt, now);
      if j < 0 then Append else SameTurnPlan(ms, j, createdAt)
  }

  function SameTurnPlan(ms: seq<Message>, j: nat, createdAt: Stamp): (t: Turn)
    requires j < |ms|
    ensures !t.Append? && (t.ConfirmAt? ==> t.index == j)
  {
    if ms[j].optimistic then ConfirmAt(j, true)
    else if ms[j].createdAt.raw == createdAt.raw then Keep
    else ConfirmAt(j, false)
  }

  function PlanTurn(ms: seq<Message>, bound: Option<Id>, content: string, createdAt: Stamp, now: int): (t: Turn)
    ensures t.ConfirmAt? ==> t.index < |ms|
  {
    if content == "" then Keep
    else
      var k := if bound.Some? then FindId(ms, bound.value) else -1;
      if k >= 0 then ConfirmAt(k, true) else PlanUnbound(ms, content, createdAt, now)
  }

  function ConfirmedMessage(m: Message, content: string, createdAt: Stamp): Message {
    m.(body := m.body.(text := content), createdAt := createdAt, optimistic := false)
  }

  function UserMessage(id: Id, content: string, createdAt: Stamp, optimistic: bool): Message {
    Message(id, User, NO_BODY.(text := content), optimistic, None, createdAt, None, None, None, None)
  }

  // A new user message goes before the processing bubble of its own reply.
  function InsertTurn(ms: seq<Message>, m: Message, assistant: Option<Id>): seq<Message> {
    var n := |ms| - 1;
    if assistant.Some? && ms != [] && ms[n].id == assistant.value && ms[n].role.Assistant?
       && ms[n].streamStatus == Some(Processing) then ms[..n] + [m, ms[n]]
    else ms + [m]
  }

  // What the plan does to messages already on screen.
  function Planned(s: Screen, plan: Turn, content: string, createdAt: Stamp): Screen
    requires plan.ConfirmAt? ==> plan.index < |s.messages|
  {
    match plan
    case ConfirmAt(k, untrack) =>
      Show(if untrack then UntrackAll(s, {s.messages[k].id}) else s,
           s.messages[k := ConfirmedMessage(s.messages[k], content, createdAt)])
    case _ => Show(s, s.messages)
  }

  function TurnAppended(st: Chat, content: string, createdAt: Stamp): Chat {
    var m := UserMessage(Local(st.nextId), content, createdAt, false);
    st.(screen := Show(st.screen, InsertTurn(st.screen.messages, m, st.cursor.active)), nextId := st.nextId + 1)
  }

  function ShowTurn(st: Chat, bound: Option<Id>, content: string, createdAt: Stamp, now: int): Chat {
    var plan := PlanTurn(st.screen.messages, bound, content, createdAt, now);
    if plan.Append? then TurnAppended(st, content, createdAt)
    else st.(screen := Planned(st.screen, plan, content, createdAt))
  }

  function Lookup<K, V>(m: map<K, V>, k: K): Option<V> { if k in m then Some(m[k]) else None }

  // The turn's inflight becomes the current one, unless the turn names none.
  function AdoptTurn(st: Chat, i: InflightId): Chat {
    if i == "" then st
    else
      var reset := Mismatch(st, i) && !st.cursor.status.Sending?;
      st.(index := st.index.(seen := st.index.seen + {i}, finalized := st.index.finalized - {i}),
          live := if reset then NO_BODY else st.live,
          cursor := st.cursor.(inflight := Some(i), active := if reset then None else st.cursor.active))
  }

  predicate TurnIgnored(st: Chat, i: InflightId) { i != "" && StaleReplay(st, i) }

  function OnUserTurn(st: Chat, e: Event, clock: Clock): Chat
    requires e.UserTurn?
  {
    if TurnIgnored(st, e.inflight) then st
    else
      var r := Ensure(AdoptTurn(st, e.inflight), Key(e.inflight), false, clock);
      var bound := if e.inflight == "" then None else Lookup(r.screen.trackedBy, e.inflight);
      var t := ShowTurn(r, bound, e.content, e.createdAt, clock.now);
      t.(cursor := t.cursor.(streaming := true))
  }

  // ---- finals and acknowledgements ----

  predicate Visible(ms: seq<Message>, id: Id) { exists k :: 0 <= k < |ms| && ms[k].id == id && ms[k].role.Assistant? }

  // preMappedAssistantId ?? getExistingAssistantMessageIdForInflight(i)
  function ExistingBubble(st: Chat, i: InflightId): Option<Id> {
    if i in st.index.assistantOf then Some(st.index.assistantOf[i])
    else if i != "" && i in st.index.historical && Visible(st.screen.messages, st.index.historical[i])
    then Some(st.index.historical[i]) else None
  }

  function StatusOf(s: FinalStatus): StreamStatus {
    match s case OkFinal => Complete case StoppedFinal => Stopped case FailedFinal => Failed
  }

  function FinalPatch(e: Event): Patch
    requires e.TurnFinal?
  {
    NO_PATCH.(streamStatus := Some(StatusOf(e.status)), kind := if e.status.FailedFinal? then Some(ErrorKind) else None,
             usage := e.usage, timing := e.timing)
  }

  // A failed run that wrote nothing shows its error instead.
  predicate ShowsError(e: Event, live: Body) {
    e.TurnFinal? && e.status.FailedFinal? && e.error.Some? && e.error.value != "" && Blank(live.text)
  }

  function FinalBody(e: Event, live: Body): Body
    requires e.TurnFinal?
  {
    if ShowsError(e, live) then live.(text := e.error.value, segments := [Text(e.error.value)]) else live
  }

  function Finalize(x: Index, i: InflightId): Index {
    See(x, i).(finalized := x.finalized + {i}, assistantOf := x.assistantOf - {i})
  }

  predicate OutOfBand(st: Chat, i: InflightId) {
    Mismatch(st, i) || (i in st.index.assistantOf && st.cursor.inflight != Some(i))
  }

  // A run ends in the bubble it had, or in one made now.
  function FinishWith(x: Chat, e: Event, bubble: Option<Id>, clock: Clock): Chat
    requires e.TurnFinal?
  {
    var i := e.inflight;
    var r := if bubble.Some? then x else Ensure(x, Key(i), false, clock);
    var live := FinalBody(e, r.live);
    Sync(r.(live := live,
            cursor := r.cursor.(inflight := Some(i), status := Idle, streaming := false, stopRequest := None,
                stopInflight := None)),
         if bubble.Some? then bubble.value else EnsuredId(x, Key(i), false), FinalPatch(e).(body := Some(live)))
  }

  // The current run ends. Its bubble is looked up before its mapping is dropped; a
  // run without one gets a bubble (and keeps that mapping).
  function FinishCurrent(st: Chat, e: Event, clock: Clock): Chat
    requires e.TurnFinal?
  {
    FinishWith(st.(index := Finalize(st.index, e.inflight)), e, Lookup(st.index.assistantOf, e.inflight), clock)
  }

  function OnFinal(st: Chat, e: Event, clock: Clock): Chat
    requires e.TurnFinal?
  {
    var i := e.inflight;
    if i in st.index.finalized then st
    else if !OutOfBand(st, i) then FinishCurrent(st, e, clock)
    else
      var x := st.(index := Finalize(st.index, i));
      var bubble := ExistingBubble(st, i);
      if bubble.None? then x else Sync(x, bubble.value, FinalPatch(e))
  }

  predicate AckTaken(st: Chat, e: Event) {
    && e.CancelAck? && e.conversation == st.conversation
    && e.noop && st.cursor.status.Stopping? && st.cursor.stopRequest == Some(e.requestId)
  }

  predicate HasVisibleContent(m: Message) {
    || !Blank(m.body.text) || m.body.tools != [] || m.body.warnings != [] || m.command.Some? || !Blank(m.body.think)
  }

  function Without(ms: seq<Message>, id: Id): seq<Message> {
    if ms == [] then []
    else
      var init, last := Without(ms[..|ms| - 1], id), ms[|ms| - 1];
      if last.id == id then init else init + [last]
  }

  // Removes the bubble with this id if it shows nothing.
  function WithoutEmpty(ms: seq<Message>, id: Id): seq<Message> {
    var k := FindId(ms, id);
    if k < 0 || !ms[k].role.Assistant? || HasVisibleContent(ms[k]) then ms else Without(ms, id)
  }

  function PendingTarget(st: Chat, target: Option<InflightId>): Option<Id> {
    if target.Some? && target.value in st.index.assistantOf then Some(st.index.assistantOf[target.value])
    else st.cursor.active
  }

  // removePendingAssistantIfOptimistic: an empty bubble goes, and so does its pointer.
  function RemovePending(st: Chat, target: Option<InflightId>): Chat {
    var id := PendingTarget(st, target);
    if id.None? then st
    else
      st.(screen := Show(st.screen, WithoutEmpty(st.screen.messages, id.value)),
          index :=
            if target.None? || target.value == "" then st.index
            else st.index.(assistantOf := st.index.assistantOf - {target.value}),
          cursor := if st.cursor.active == id then st.cursor.(active := None) else st.cursor)
  }

  function OnCancelAck(st: Chat, e: Event): Chat
    requires e.CancelAck?
  {
    if !AckTaken(st, e) then st
    else
      var r := RemovePending(st, st.cursor.stopInflight);
      r.(cursor := r.cursor.(streaming := false, inflight := None, status := Idle, stopRequest := None,
          stopInflight := None))
  }

  function Heard(st: Chat, e: Event): Chat {
    if e.CancelAck? then st else st.(cursor := st.cursor.(inflightSeq := Max(st.cursor.inflightSeq, e.seqNo)))
  }

  function HandleWsEvent(st: Chat, e: Event, clock: Clock): Chat {
    if e.conversation != st.conversation then st
    else if e.CancelAck? then OnCancelAck(st, e)
    else if e.UserTurn? then OnUserTurn(Heard(st, e), e, clock)
    else if e.InflightSnapshot? then OnSnapshot(Heard(st, e), e, clock)
    else if e.TurnFinal? then OnFinal(Heard(st, e), e, clock)
    else OnIncremental(Heard(st, e), e, clock)
  }

  // ---- local operations ----

  // resetInflightState
  function ResetInflight(st: Chat): Chat { st.(live := NO_BODY, cursor := NO_CURSOR) }

  // clearLocalStreamingIndicators rewrites the list only when a bubble is active.
  function Touch(st: Chat): Chat {
    if st.cursor.active.None? then st else st.(screen := Show(st.screen, st.screen.messages))
  }

  function StopRun(st: Chat, requestId: Option<string>): Chat {
    var t := Touch(st);
    t.(cursor := t.cursor.(status := Stopping, stopInflight := t.cursor.inflight,
       stopRequest := if requestId.Some? && requestId.value != "" then requestId else t.cursor.stopRequest))
  }

  function Forget(st: Chat, conversation: string): Chat {
    ResetInflight(st).(conversation := conversation, index := NO_INDEX,
                       screen := Screen(st.screen.messages, {}, map[]))
  }

  function ResetAll(st: Chat, conversation: string): Chat {
    Forget(st.(screen := Show(st.screen, [])), conversation)
  }

  function SetConversation(st: Chat, conversation: string, clearMessages: bool): Chat {
    var t := Touch(st);
    Forget(if clearMessages then t.(screen := Show(t.screen, [])) else t, conversation)
  }

  // The effect that runs once a new conversation id is rendered.
  function ConversationEffect(st: Chat): Chat {
    st.(index := NO_INDEX, screen := st.screen.(tracked := {}, trackedBy := map[]),
        cursor := st.cursor.(stopRequest := None, stopInflight := None))
  }

  function AppendLocal(st: Chat, m: Message): Chat {
    st.(screen := Show(st.screen, st.screen.messages + [m]))
  }

  function AppendOptimistic(st: Chat, content: string, clock: Clock): Chat {
    var id := Local(st.nextId);
    st.(nextId := st.nextId + 1,
        screen := Show(st.screen.(tracked := st.screen.tracked + {id}),
                       st.screen.messages + [UserMessage(id, content, clock.stamp, true)]))
  }

  function BindOptimistic(st: Chat, id: Id, i: InflightId): Chat {
    if i == "" || id !in st.screen.tracked then st
    else st.(screen := st.screen.(trackedBy := st.screen.trackedBy[i := id]))
  }

  function Unoptimistic(ms: seq<Message>, id: Id): (r: seq<Message>)
    ensures |r| == |ms|
    ensures forall k | 0 <= k < |ms| ::
      r[k] == if ms[k].id == id && ms[k].role.User? then ms[k].(optimistic := false) else ms[k]
  {
    seq(|ms|, k requires 0 <= k < |ms| =>
        if ms[k].id == id && ms[k].role.User? then ms[k].(optimistic := false) else ms[k])
  }

  function FinalizeOptimistic(st: Chat, id: Id): Chat {
    st.(screen := Show(UntrackAll(st.screen, {id}), Unoptimistic(st.screen.messages, id)))
  }

  // send resets the refs, adopts its new inflight and shows the user's message.
  function SendPrepared(st: Chat, text: string, i: InflightId, clock: Clock): Chat {
    var t := ResetInflight(Touch(st));
    t.(index := See(t.index, i), nextId := t.nextId + 1,
       cursor := t.cursor.(inflight := Some(i), status := Sending, streaming := true),
       screen := Show(t.screen, t.screen.messages + [UserMessage(Local(t.nextId), text, clock.stamp, false)]))
  }

  // send, up to its request.
  function SendBegin(st: Chat, text: string, ready: bool, i: InflightId, clock: Clock): Chat {
    if Blank(text) || st.cursor.status.Sending? || !ready then st
    else
      var u := SendPrepared(st, text, i, clock);
      var r := Ensure(u, Key(i), true, clock);
      Sync(r, EnsuredId(u, Key(i), true), NO_PATCH.(body := Some(r.live), streamStatus := Some(Processing)))
  }

  // The server's answer to an accepted request.
  function SendStarted(st: Chat, i: InflightId, conversation: string): Chat {
    var t := if i == "" then st else st.(cursor := st.cursor.(inflight := Some(i)));
    if conversation == "" || conversation == t.conversation then t
    else t.(conversation := conversation, index := t.index.(assistantOf := map[], seen := {}))
  }

  function ErrorBubble(id: Id, error: string): Message {
    Message(id, Assistant, NO_BODY.(text := error), false, None, Stamp("", None), None, Some(ErrorKind), None, None)
  }

  // The error bubble of a request refused (409) or failed; only a refusal forgets the inflight.
  function ErrorShown(st: Chat, error: string, refused: bool): Chat {
    st.(screen := Show(st.screen, st.screen.messages + [ErrorBubble(Local(st.nextId), error)]), nextId := st.nextId + 1,
        cursor := st.cursor.(streaming := false, status := Idle,
                             inflight := if refused then None else st.cursor.inflight))
  }

  // The active bubble fails with the request.
  function SendFailed(st: Chat, error: string, refused: bool): Chat {
    var t := ErrorShown(st, error, refused);
    if t.cursor.active.None? then t
    else Sync(t, t.cursor.active.value, NO_PATCH.(body := Some(t.live), streamStatus := Some(Failed)))
  }

  // ---- hydration ----

  predicate LiveMessage(m: Message) { m.streamStatus == Some(Processing) || m.optimistic }

  predicate HasLive(st: Chat) {
    || st.cursor.streaming || st.cursor.status.Sending? || st.cursor.inflight.Some? || st.screen.tracked != {}
    || exists k :: 0 <= k < |st.screen.messages| && LiveMessage(st.screen.messages[k])
  }

  // Is this history entry the message on screen?
  predicate Matches(onScreen: Message, entry: Message) {
    var a, b := onScreen.body.text, entry.body.text;
    && onScreen.role == entry.role && (a != "" || b != "")
    && if a == b then
         || onScreen.optimistic
         || WithinHydrationWindow(entry.createdAt, onScreen.createdAt)
         || (onScreen.streamStatus == Some(Processing) && a != "")
       else onScreen.streamStatus == Some(Processing) && a != "" && a <= b
  }

  function FirstMatch(candidates: seq<Message>, entry: Message): (r: Option<Message>)
    ensures r.Some? ==> r.value in candidates && Matches(r.value, entry)
    ensures r.None? ==> forall k | 0 <= k < |candidates| :: !Matches(candidates[k], entry)
  {
    if candidates == [] then None
    else if Matches(candidates[0], entry) then Some(candidates[0])
    else FirstMatch(candidates[1..], entry)
  }

  function Pick<T>(f: Field, e: Entry, a: T, b: T): T { if f in e.present then a else b }

  // The matched message with every field the entry carries, confirmed and under its own id.
  function Overlay(m: Message, e: Entry): Message {
    var n := e.message;
    Message(m.id, n.role,
            Body(n.body.text, Pick(ThinkField, e, n.body.think, m.body.think), n.body.segments,
                 Pick(ToolsField, e, n.body.tools, m.body.tools),
                 Pick(WarningsField, e, n.body.warnings, m.body.warnings),
                 Pick(CitationsField, e, n.body.citations, m.body.citations)),
            false, Pick(StatusField, e, n.streamStatus, m.streamStatus),
            Pick(CreatedAtField, e, n.createdAt, m.createdAt),
            Pick(CommandField, e, n.command, m.command), Pick(KindField, e, n.kind, m.kind),
            Pick(UsageField, e, n.usage, m.usage), Pick(TimingField, e, n.timing, m.timing))
  }

  // kept: unmatched entries; replacements: by id of the matched message;
  // untracked: matched optimistic messages; reset: a finished entry met a live bubble.
  datatype Merge = Merge(kept: seq<Message>, replacements: map<Id, Message>, untracked: set<Id>, reset: bool)

  function MergeOne(acc: Merge, candidates: seq<Message>, e: Entry): Merge {
    match FirstMatch(candidates, e.message)
    case None => acc.(kept := acc.kept + [e.message])
    case Some(m) =>
      var s := e.message.streamStatus;
      Merge(acc.kept, acc.replacements[m.id := Overlay(m, e)],
            if m.optimistic then acc.untracked + {m.id} else acc.untracked,
            acc.reset || (m.streamStatus == Some(Processing) && s.Some? && !s.value.Processing?))
  }

  function MergeHistory(candidates: seq<Message>, history: seq<Entry>): Merge {
    if history == [] then Merge([], map[], {}, false)
    else MergeOne(MergeHistory(candidates, history[..|history| - 1]), candidates, history[|history| - 1])
  }

  function EntryMessages(history: seq<Entry>): (r: seq<Message>)
    ensures |r| == |history| && forall k | 0 <= k < |r| :: r[k] == history[k].message
  {
    seq(|history|, k requires 0 <= k < |history| => history[k].message)
  }

  function Replace(ms: seq<Message>, replacements: map<Id, Message>): (r: seq<Message>)
    ensures |r| == |ms|
    ensures forall k | 0 <= k < |ms| :: r[k] == if ms[k].id in replacements then replacements[ms[k].id] else ms[k]
  {
    seq(|ms|, k requires 0 <= k < |ms| => if ms[k].id in replacements then replacements[ms[k].id] else ms[k])
  }

  // The first message of each id.
  function Dedupe(ms: seq<Message>): seq<Message> {
    if ms == [] then []
    else
      var init, last := Dedupe(ms[..|ms| - 1]), ms[|ms| - 1];
      if last.id in Ids(ms[..|ms| - 1]) then init else init + [last]
  }

  datatype Mode = ReplaceMode | PrependMode

  // The merge, when something is live on a screen that is not empty.
  function MergeFor(st: Chat, history: seq<Entry>): Merge {
    var ms := st.screen.messages;
    if HasLive(st) && ms != [] then MergeHistory(SliceFromEnd(ms, 6), history)
    else Merge(EntryMessages(history), map[], {}, false)
  }

  function MergedMessages(st: Chat, history: seq<Entry>, mode: Mode): seq<Message> {
    var g := MergeFor(st, history);
    Dedupe(if mode.PrependMode? || HasLive(st) then g.kept + Replace(st.screen.messages, g.replacements) else g.kept)
  }

  function HydrateHistory(st: Chat, conversation: string, history: seq<Entry>, mode: Mode): Chat {
    var x :=
      if st.conversation != conversation then NO_INDEX
      else if !HasLive(st) then st.index.(assistantOf := map[]) else st.index;
    var g := MergeFor(st, history);
    var t := st.(conversation := conversation, index := x,
                 screen := Show(UntrackAll(st.screen, g.untracked), MergedMessages(st, history, mode)));
    if g.reset then ResetInflight(t) else t
  }

  datatype Snapshot = Snapshot(
    inflight: InflightId, seqNo: int, text: string, think: string, toolEvents: seq<ToolEvent>,
    startedAt: Stamp, command: Option<Meta>)

  predicate SnapshotIgnored(st: Chat, conversation: string, s: Snapshot) {
    && st.conversation == conversation
    && (StaleReplay(st, s.inflight) || (st.cursor.inflight == Some(s.inflight) && s.seqNo <= st.cursor.inflightSeq))
  }

  function Rebase(st: Chat, conversation: string, seqNo: int): Chat {
    st.(conversation := conversation, cursor := st.cursor.(inflightSeq := seqNo),
        index := if st.conversation != conversation then NO_INDEX else st.index)
  }

  function HydrateSnapshot(st: Chat, conversation: string, s: Snapshot, clock: Clock): Chat {
    if SnapshotIgnored(st, conversation, s) then st
    else
      AdoptSnapshot(Rebase(st, conversation, s.seqNo), s.inflight, s.text, s.think, s.toolEvents, s.startedAt,
          s.command, clock)
  }

  // ---- runs ----

  datatype Step =
    | Ws(event: Event, clock: Clock)
    | Stop(requestId: Option<string>)
    | Reset(conversation: string)
    | Switch(conversation: string, clearMessages: bool)
    | Effect
    | AddLocal(message: Message)
    | AddOptimistic(content: string, clock: Clock)
    | Bind(id: Id, inflight: InflightId)
    | Settle(id: Id)
    | Begin(text: string, ready: bool, inflight: InflightId, clock: Clock)
    | Accepted(inflight: InflightId, conversation: string)
    | Rejected(error: string, refused: bool)
    | History(conversation: string, history: seq<Entry>, mode: Mode)
    | Restore(conversation: string, snapshot: Snapshot, clock: Clock)

  function Next(st: Chat, step: Step): Chat {
    match step
    case Ws(e, clock) => HandleWsEvent(st, e, clock)
    case Stop(requestId) => StopRun(st, requestId)
    case Reset(conversation) => ResetAll(st, conversation)
    case Switch(conversation, clearMessages) => SetConversation(st, conversation, clearMessages)
    case Effect => ConversationEffect(st)
    case AddLocal(m) => AppendLocal(st, m)
    case AddOptimistic(content, clock) => AppendOptimistic(st, content, clock)
    case Bind(id, i) => BindOptimistic(st, id, i)
    case Settle(id) => FinalizeOptimistic(st, id)
    case Begin(text, ready, i, clock) => SendBegin(st, text, ready, i, clock)
    case Accepted(i, conversation) => SendStarted(st, i, conversation)
    case Rejected(error, refused) => SendFailed(st, error, refused)
    case History(conversation, history, mode) => HydrateHistory(st, conversation, history, mode)
    case Restore(conversation, s, clock) => HydrateSnapshot(st, conversation, s, clock)
  }

  function Run(conversation: string, steps: seq<Step>): Chat {
    if steps == [] then Start(conversation)
    else Next(Run(conversation, steps[..|steps| - 1]), steps[|steps| - 1])
  }
}
