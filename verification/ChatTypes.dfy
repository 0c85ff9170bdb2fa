// client/src/hooks/useChatStream.ts: the messages, events and refs of the chat
// transcript. Command, usage and timing metadata are opaque, already normalised values.
module ChatTypes {
  import opened Prelude

  // makeId() yields Local(0), Local(1), ...; other ids come from outside.
  datatype Id = Local(n: nat) | Given(text: string)

  type InflightId = string  // "" is falsy and stands for "no inflight"
  type Meta = string

  // A timestamp as text, and its value when the text is a date; absent is Stamp("", None).
  datatype Stamp = Stamp(raw: string, ms: Option<int>)

  datatype Clock = Clock(now: int, stamp: Stamp)

  datatype Role = User | Assistant | System
  datatype StreamStatus = Processing | Complete | Failed | Stopped
  datatype Kind = ErrorKind | StatusKind
  datatype Status = Idle | Sending | Stopping

  datatype ToolStatus = Requesting | ToolDone | ToolError

  datatype ToolCall = ToolCall(
    id: Id, name: Option<string>, status: ToolStatus, payload: Option<Meta>, parameters: Option<Meta>,
    stage: Option<string>, errorTrimmed: Option<Meta>, errorFull: Option<Meta>)

  datatype Segment = Text(content: string) | Tool(tool: ToolCall)

  // What an assistant bubble shows, and what the live refs collect for the current one.
  // "tools" lists the values of the tool-call map in insertion order.
  datatype Body = Body(
    text: string, think: string, segments: seq<Segment>, tools: seq<ToolCall>,
    warnings: seq<string>, citations: seq<Meta>)

  datatype Message = Message(
    id: Id, role: Role, body: Body, optimistic: bool, streamStatus: Option<StreamStatus>, createdAt: Stamp,
    command: Option<Meta>, kind: Option<Kind>, usage: Option<Meta>, timing: Option<Meta>)

  // callId is None when the event's is missing or blank; "citations" are the ones in the payload.
  datatype ToolEvent =
    | ToolRequest(callId: Option<string>, name: Option<string>, parameters: Option<Meta>, stage: Option<string>)
    | ToolResult(callId: Option<string>, name: Option<string>, parameters: Option<Meta>, stage: Option<string>,
                 payload: Option<Meta>, errorTrimmed: Option<Meta>, errorFull: Option<Meta>, citations: seq<Meta>)

  datatype FinalStatus = OkFinal | StoppedFinal | FailedFinal

  datatype Event =
    | UserTurn(conversation: string, seqNo: int, inflight: InflightId, content: string, createdAt: Stamp)
    | InflightSnapshot(conversation: string, seqNo: int, inflight: InflightId, text: string, think: string,
                       toolEvents: seq<ToolEvent>, startedAt: Stamp, command: Option<Meta>)
    | AssistantDelta(conversation: string, seqNo: int, inflight: InflightId, delta: string)
    | AnalysisDelta(conversation: string, seqNo: int, inflight: InflightId, delta: string)
    | StreamWarning(conversation: string, seqNo: int, inflight: InflightId, warning: string)
    | ToolEventMessage(conversation: string, seqNo: int, inflight: InflightId, event: ToolEvent)
    | TurnFinal(conversation: string, seqNo: int, inflight: InflightId, status: FinalStatus, error: Option<string>,
                usage: Option<Meta>, timing: Option<Meta>)
    | CancelAck(conversation: string, requestId: string, noop: bool)
  {
    // Everything but an acknowledgement belongs to the transcript of one inflight.
    predicate Transcript() { !CancelAck? }
  }

  // A message of persisted history, with the optional fields it carries.
  datatype Field =
    ThinkField | ToolsField | WarningsField | CitationsField | StatusField | CreatedAtField | CommandField
    | KindField | UsageField | TimingField

  datatype Entry = Entry(message: Message, present: set<Field>)

  // The message list and the tracking of optimistic user messages.
  datatype Screen = Screen(messages: seq<Message>, tracked: set<Id>, trackedBy: map<InflightId, Id>)

  // Which inflight owns which bubble.
  datatype Index = Index(
    assistantOf: map<InflightId, Id>, historical: map<InflightId, Id>,
    seen: set<InflightId>, finalized: set<InflightId>)

  datatype Cursor = Cursor(
    inflight: Option<InflightId>, inflightSeq: int, active: Option<Id>, status: Status, streaming: bool,
    stopRequest: Option<string>, stopInflight: Option<InflightId>)

  datatype Chat = Chat(conversation: string, screen: Screen, index: Index, live: Body, cursor: Cursor, nextId: nat)

  const NO_BODY := Body("", "", [], [], [], [])
  const NO_INDEX := Index(map[], map[], {}, {})
  const NO_CURSOR := Cursor(None, 0, None, Idle, false, None, None)

  function Start(conversation: string): Chat {
    Chat(conversation, Screen([], {}, map[]), NO_INDEX, NO_BODY, NO_CURSOR, 0)
  }

  function Key(i: InflightId): Option<InflightId> { if i == "" then None else Some(i) }

  function Max(a: int, b: int): int { if a < b then b else a }

  // The characters String.prototype.trim removes.
  predicate IsSpace(c: char) {
    || '\t' <= c <= '\r' || c == ' ' || c == '\U{00A0}' || c == '\U{1680}' || '\U{2000}' <= c <= '\U{200A}'
    || c == '\U{2028}' || c == '\U{2029}' || c == '\U{202F}' || c == '\U{205F}' || c == '\U{3000}' || c == '\U{FEFF}'
  }

  predicate Blank(s: string) { forall k | 0 <= k < |s| :: IsSpace(s[k]) }

  const TRIMMED := "\t\n\U{B}\U{C}\r \U{A0}\U{1680}\U{2000}\U{2001}\U{2002}\U{2003}\U{2004}\U{2005}\U{2006}\U{2007}"
    + "\U{2008}\U{2009}\U{200A}\U{2028}\U{2029}\U{202F}\U{205F}\U{3000}\U{FEFF}"

  // A text is blank exactly if it consists of those characters, one by one.
  lemma BlankMeans(s: string)
    ensures Blank(s) <==> forall c | c in s :: c in TRIMMED
  {
    forall c ensures IsSpace(c) <==> c in TRIMMED {}
    if Blank(s) { assert forall c | c in s :: IsSpace(c); }
  }
}
