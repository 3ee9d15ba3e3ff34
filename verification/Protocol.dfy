/** The values that the runtime's machines exchange and journal.
    Identifiers are integers: an identifier stands for its rank in the order that
    the source's ordered maps use, and the machines only compare identifiers. */
module Protocol {

  datatype Option<+T> = None | Some(value: T)

  datatype Result<+T, +E> = Ok(value: T) | Err(error: E) {
    predicate IsFailure() { Err? }
    function PropagateFailure<U>(): Result<U, E> requires Err? { Err(error) }
    function Extract(): T requires Ok? { value }
  }

  type SessionId = int
  type TurnId = int
  type RequestId = int
  type RecordId = int
  type CallId = int
  type CompactionId = int

  const MAX_U64: nat := 0xFFFF_FFFF_FFFF_FFFF

  type U64 = n: nat | n <= MAX_U64

  datatype RuntimeErrorCode =
    | Configuration | CredentialMissing | TransportTimeout | TransportNetwork | HttpStatus
    | ProtocolMalformedJson | ProtocolPrematureEof | ProtocolDuplicateTerminal
    | ProtocolEventAfterTerminal | ProtocolUnknownEvent | Interrupted | WorkspaceBusy
    | Recovery | ToolUnavailable | AgentBudgetExhausted

  lemma Inhabited(s: set<int>)
    ensures s == {} || exists x :: x in s
  {
    if forall x :: x !in s {
      assert s == {};
    }
  }

  function Sum(parts: seq<nat>): nat {
    if parts == [] then 0 else Sum(parts[..|parts| - 1]) + parts[|parts| - 1]
  }

  lemma LeastExists(ids: set<int>)
    requires ids != {}
    ensures exists m :: m in ids && forall x :: x in ids ==> m <= x
  {
    Inhabited(ids);
    var m :| m in ids;
    if ids != {m} {
      LeastExists(ids - {m});
      var k :| k in ids - {m} && forall x :: x in ids - {m} ==> k <= x;
      var least := if m < k then m else k;
      assert forall x :: x in ids ==> x == m || x in ids - {m};
      assert least in ids && forall x :: x in ids ==> least <= x;
    }
  }

  function Least(ids: set<int>): (m: int)
    requires ids != {}
    ensures m in ids && forall x :: x in ids ==> m <= x
  {
    LeastExists(ids);
    var m :| m in ids && forall x :: x in ids ==> m <= x;
    m
  }

  // ---------------------------------------------------------------- text

  function CharBytes(c: char): (n: nat)
    ensures 1 <= n <= 4
  {
    if c as int < 0x80 then 1 else if c as int < 0x800 then 2 else if c as int < 0x10000 then 3 else 4
  }

  /** A character in UTF-8 (section 3 of RFC 3629). */
  function Utf8(c: char): (bytes: seq<nat>)
    ensures |bytes| == CharBytes(c)
  {
    var n := c as int;
    if n <= 0x7F then [n]
    else if n <= 0x7FF then [0xC0 + n / 64, 0x80 + n % 64]
    else if n <= 0xFFFF then [0xE0 + n / 4_096, 0x80 + n / 64 % 64, 0x80 + n % 64]
    else [0xF0 + n / 262_144, 0x80 + n / 4_096 % 64, 0x80 + n / 64 % 64, 0x80 + n % 64]
  }

  function Utf8Text(text: string): (bytes: seq<nat>)
    ensures |bytes| == Utf8Len(text)
  {
    if text == [] then [] else Utf8(text[0]) + Utf8Text(text[1..])
  }

  /** UTF-8 length of a text. */
  function Utf8Len(text: string): (n: nat)
    ensures |text| <= n <= 4 * |text|
  {
    if text == [] then 0 else CharBytes(text[0]) + Utf8Len(text[1..])
  }

  /** The Unicode White_Space property. */
  predicate IsWhitespace(c: char) {
    var n := c as int;
    || 9 <= n <= 13 || n == 0x20 || n == 0x85 || n == 0xA0 || n == 0x1680
    || 0x2000 <= n <= 0x200A || n == 0x2028 || n == 0x2029 || n == 0x202F
    || n == 0x205F || n == 0x3000
  }

  predicate IsBlank(text: string) {
    forall i :: 0 <= i < |text| ==> IsWhitespace(text[i])
  }

  predicate IsCodeChar(c: char) { 'a' <= c <= 'z' || '0' <= c <= '9' || c == '_' }

  /** Tool names and result codes: 1 to 64 lower-case letters, digits or underscores. */
  predicate ValidCode(code: string) {
    1 <= |code| <= 64 && forall i :: 0 <= i < |code| ==> IsCodeChar(code[i])
  }

  // ---------------------------------------------------------------- tools

  const MAX_TOOL_ARGUMENT_BYTES: nat := 65_536
  const MAX_TOOL_RESULT_BYTES: nat := 65_536
  const MAX_TOOL_DESCRIPTION_BYTES: nat := 1_024

  datatype ToolEffect = Read | Write | Process

  /** What the code reads of a call's argument text: its length, and its key set when it is a JSON object. */
  datatype Arguments = Arguments(bytes: nat, keys: Option<set<string>>) {
    predicate Valid() { bytes <= MAX_TOOL_ARGUMENT_BYTES && keys.Some? }
  }

  datatype ToolCall = ToolCall(callId: CallId, name: string, arguments: Arguments) {
    predicate Valid() { ValidCode(name) && arguments.Valid() }
  }

  datatype ToolInvocation = ToolInvocation(call: ToolCall, effect: ToolEffect)

  datatype DecisionKind = Approved | Refused

  datatype ToolDecision = ToolDecision(callId: CallId, kind: DecisionKind, code: string) {
    predicate Valid() { ValidCode(code) }
  }

  datatype ToolStatus = Succeeded | Failed | Rejected | Cancelled | Indeterminate

  datatype ToolResult =
    ToolResult(callId: CallId, toolName: string, status: ToolStatus, code: string, output: Option<string>)
  {
    predicate Valid() {
      && ValidCode(toolName) && ValidCode(code)
      && (output.Some? ==> Utf8Len(output.value) <= MAX_TOOL_RESULT_BYTES)
    }
  }

  /** A tool definition with the parts of its JSON schema that validation reads. */
  datatype ToolDefinition = ToolDefinition(
    name: string, descriptionBytes: nat, wellFormedSchema: bool,
    properties: set<string>, required: set<string>)
  {
    predicate Valid() {
      ValidCode(name) && descriptionBytes <= MAX_TOOL_DESCRIPTION_BYTES && wellFormedSchema
    }

    predicate Accepts(call: ToolCall) {
      && call.name == name && call.arguments.Valid() && wellFormedSchema
      && call.arguments.keys.value <= properties && required <= call.arguments.keys.value
    }
  }

  // ---------------------------------------------------------------- turns and requests

  datatype Role = System | User | Assistant
  datatype Usage = Usage(input: Option<U64>, output: Option<U64>, total: Option<U64>)
  datatype Failure = Failure(code: RuntimeErrorCode, httpStatus: Option<nat>)
  datatype Outcome = Completed | FailedWith(failure: Failure) | WasInterrupted | Stopped

  datatype TurnReceipt = TurnReceipt(
    sessionId: SessionId, turnId: TurnId, requestId: RequestId, outcome: Outcome, usage: Option<Usage>)

  datatype ModelBinding = ModelBinding(providerId: nat, modelId: nat, chatCompletions: bool)

  datatype AgentLimits = AgentLimits(
    maxProviderRounds: nat, maxToolCalls: nat, maxElapsedMs: nat, maxToolResultBytes: nat)
  {
    predicate Valid() {
      && 1 <= maxProviderRounds <= 64 && 1 <= maxToolCalls <= 256
      && 1 <= maxElapsedMs <= 3_600_000 && 1 <= maxToolResultBytes <= 16 * 1_024 * 1_024
    }
  }

  datatype ConversationItem =
    | Message(role: Role, content: string)
    | ToolCalls(calls: seq<ToolCall>)
    | ToolOutput(result: ToolResult)
  {
    function ByteLen(): nat {
      match this
      case Message(_, content) => Utf8Len(content)
      case ToolCalls(calls) => CallBytes(calls)
      case ToolOutput(result) => if result.output.Some? then Utf8Len(result.output.value) else 0
    }
  }

  function CallBytes(calls: seq<ToolCall>): nat {
    if calls == [] then 0 else Utf8Len(calls[0].name) + calls[0].arguments.bytes + CallBytes(calls[1..])
  }

  const MAX_MESSAGES: nat := 4_096
  const MAX_MESSAGE_BYTES: nat := 1_048_576
  const MAX_OUTPUT_TOKENS: nat := 1_048_576

  datatype TurnRequest = TurnRequest(
    sessionId: SessionId, turnId: TurnId, requestId: RequestId, binding: ModelBinding,
    messages: seq<ConversationItem>, tools: seq<ToolDefinition>,
    agentLimits: Option<AgentLimits>, maxOutputTokens: nat)

  // ---------------------------------------------------------------- the session journal

  datatype SessionStatus = Active | Archived
  datatype TurnStatus = Running | TurnCompleted | TurnFailed | TurnInterrupted | TurnStopped

  datatype VisibleMessage = VisibleMessage(role: Role, content: string, partial: bool)

  datatype ToolRecord = ToolRecord(
    invocation: ToolInvocation, requestedAt: nat,
    decision: Option<ToolDecision>, decisionAt: Option<nat>, startedAt: Option<nat>,
    terminal: Option<ToolResult>, terminalAt: Option<nat>)

  datatype TurnRecord = TurnRecord(
    turnId: TurnId, requestId: RequestId, startedAt: nat, completedAt: Option<nat>,
    retryOf: Option<TurnId>, status: TurnStatus, userMessage: VisibleMessage,
    assistantMessage: Option<VisibleMessage>, usage: Option<Usage>,
    receipt: Option<TurnReceipt>, tools: seq<ToolRecord>)

  datatype CompactionPointer = CompactionPointer(compactionId: CompactionId, coveredThrough: TurnId)
  datatype RecentTurn = RecentTurn(turnId: TurnId, user: string, assistant: string)

  datatype CompactionRecord = CompactionRecord(
    compactionId: CompactionId, coveredThrough: TurnId, goal: seq<string>,
    constraints: seq<string>, decisions: seq<string>, openItems: seq<string>,
    recentTurns: seq<RecentTurn>, beforeTokens: nat, afterTokens: nat)

  datatype SessionRecord = SessionRecord(
    sessionId: SessionId, createdAt: nat, updatedAt: nat, status: SessionStatus,
    binding: ModelBinding, turns: seq<TurnRecord>, compaction: Option<CompactionPointer>)

  datatype TraceEntry = TraceEntry(recordedAt: nat, code: nat, facts: map<string, string>)

  datatype JournalRecord =
    | SessionCreated(session: SessionRecord)
    | SessionActivated(sid: SessionId, activatedAt: nat)
    | TurnStarted(sid: SessionId, binding: ModelBinding, turn: TurnRecord)
    | TurnDelta(sid: SessionId, tid: TurnId, delta: string, at: nat)
    | TurnTerminal(sid: SessionId, receipt: TurnReceipt, message: Option<VisibleMessage>, at: nat)
    | ToolRequested(sid: SessionId, tid: TurnId, invocation: ToolInvocation, at: nat)
    | ToolDecided(sid: SessionId, tid: TurnId, decision: ToolDecision, at: nat)
    | ToolStarted(sid: SessionId, tid: TurnId, callId: CallId, at: nat)
    | ToolTerminal(sid: SessionId, tid: TurnId, result: ToolResult, at: nat)
    | RecoveryApplied(sid: SessionId, receipt: TurnReceipt, message: Option<VisibleMessage>, at: nat)
    | CompactionStored(sid: SessionId, compaction: CompactionRecord, at: nat)
    | TraceStored(sid: SessionId, entry: TraceEntry)

  datatype Envelope = Envelope(recordId: RecordId, record: JournalRecord)
}
