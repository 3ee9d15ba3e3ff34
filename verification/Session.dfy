/** What the session journal means: how a record, a command and a log change the sessions. */
module Session {
  import opened Protocol
  import opened Requests

  datatype Journal = Journal(sessions: map<SessionId, SessionRecord>, active: Option<SessionId>)

  /** The reducer's state: the projected sessions and every record applied so far. */
  datatype Machine = Machine(journal: Journal, seen: map<RecordId, Envelope>)

  const EMPTY: Machine := Machine(Journal(map[], None), map[])

  // ---------------------------------------------------------------- looking things up

  /** Position of the first turn with this id, or the number of turns. */
  function TurnIndex(turns: seq<TurnRecord>, tid: TurnId): (i: nat)
    ensures i <= |turns|
    ensures forall k :: 0 <= k < i ==> turns[k].turnId != tid
    ensures i < |turns| ==> turns[i].turnId == tid
  {
    if turns == [] || turns[0].turnId == tid then 0 else 1 + TurnIndex(turns[1..], tid)
  }

  function CompletedIndex(turns: seq<TurnRecord>, tid: TurnId): (i: nat)
    ensures i <= |turns|
    ensures forall k :: 0 <= k < i ==> turns[k].turnId != tid || turns[k].status != TurnCompleted
    ensures i < |turns| ==> turns[i].turnId == tid && turns[i].status == TurnCompleted
  {
    if turns == [] || (turns[0].turnId == tid && turns[0].status == TurnCompleted) then 0
    else 1 + CompletedIndex(turns[1..], tid)
  }

  function ToolIndex(tools: seq<ToolRecord>, callId: CallId): (i: nat)
    ensures i <= |tools|
    ensures forall k :: 0 <= k < i ==> tools[k].invocation.call.callId != callId
    ensures i < |tools| ==> tools[i].invocation.call.callId == callId
  {
    if tools == [] || tools[0].invocation.call.callId == callId then 0 else 1 + ToolIndex(tools[1..], callId)
  }

  predicate RunsTurn(s: SessionRecord, tid: TurnId) {
    exists i :: 0 <= i < |s.turns| && s.turns[i].turnId == tid && s.turns[i].status == Running
  }

  predicate Busy(s: SessionRecord) {
    exists i :: 0 <= i < |s.turns| && s.turns[i].status == Running
  }

  predicate AnyBusy(j: Journal) {
    exists sid :: sid in j.sessions && Busy(j.sessions[sid])
  }

  /** The first session, in id order, in which this turn is running. */
  function RunningSession(j: Journal, tid: TurnId): (r: Option<SessionId>)
    ensures r.Some? ==> r.value in j.sessions && RunsTurn(j.sessions[r.value], tid)
    ensures r.None? ==> forall sid :: sid in j.sessions ==> !RunsTurn(j.sessions[sid], tid)
  {
    var ids := set sid | sid in j.sessions && RunsTurn(j.sessions[sid], tid);
    if ids == {} then
      assert forall sid :: sid in j.sessions && RunsTurn(j.sessions[sid], tid) ==> sid in ids;
      None
    else Some(Least(ids))
  }

  /** The first turn with this id, searching sessions in id order. */
  function FindTurn(j: Journal, tid: TurnId): (r: Option<TurnRecord>)
    ensures r.Some? ==> exists sid :: sid in j.sessions && r.value in j.sessions[sid].turns
  {
    var ids := set sid | sid in j.sessions && TurnIndex(j.sessions[sid].turns, tid) < |j.sessions[sid].turns|;
    if ids == {} then None
    else var turns := j.sessions[Least(ids)].turns; Some(turns[TurnIndex(turns, tid)])
  }

  function ActiveSession(j: Journal): Option<SessionRecord> {
    if j.active.Some? && j.active.value in j.sessions then Some(j.sessions[j.active.value]) else None
  }

  // ---------------------------------------------------------------- legal terminal results

  predicate LateShellRejection(name: string, code: string) {
    || (name == "shell_command" &&
        code in {"invalid_arguments", "input_limit", "path_not_found", "wrong_file_type",
                 "shell_requires_full_access", "shell_session_limit"})
    || (name == "shell_session" &&
        code in {"invalid_arguments", "input_limit", "shell_requires_full_access", "shell_session_not_found"})
  }

  predicate LegalAfterStart(name: string, status: ToolStatus, code: string) {
    match status
    case Succeeded | Failed | Indeterminate => true
    case Rejected => LateShellRejection(name, code)
    case Cancelled => (name == "shell_command" || name == "shell_session") && code == "cancelled"
  }

  predicate LegalTerminal(tool: ToolRecord, result: ToolResult) {
    if tool.startedAt.Some? then
      LegalAfterStart(tool.invocation.call.name, result.status, result.code)
    else
      match result.status
      case Succeeded | Indeterminate => false
      case Failed | Cancelled => true
      case Rejected => !(tool.decision.Some? && tool.decision.value.kind == Approved)
  }

  // ---------------------------------------------------------------- one record

  /** A change to a single running turn. */
  datatype TurnEdit =
    | AppendDelta(delta: string)
    | Finish(receipt: TurnReceipt, message: Option<VisibleMessage>, at: nat)
    | RequestTool(invocation: ToolInvocation, at: nat)
    | DecideTool(decision: ToolDecision, at: nat)
    | StartTool(callId: CallId, at: nat)
    | FinishTool(result: ToolResult, at: nat)

  function TurnStatusOf(outcome: Outcome): TurnStatus {
    match outcome
    case Completed => TurnCompleted
    case FailedWith(_) => TurnFailed
    case WasInterrupted => TurnInterrupted
    case Stopped => TurnStopped
  }

  predicate Closed(tool: ToolRecord) { tool.terminal.Some? }

  predicate AllClosed(tools: seq<ToolRecord>) {
    forall k :: 0 <= k < |tools| ==> Closed(tools[k])
  }

  function EditTool(tool: ToolRecord, edit: TurnEdit): Option<ToolRecord> {
    if Closed(tool) then None else
    match edit
    case DecideTool(d, at) =>
      if !d.Valid() || tool.decision.Some? || tool.startedAt.Some? then None
      else Some(tool.(decision := Some(d), decisionAt := Some(at)))
    case StartTool(_, at) =>
      if tool.startedAt.Some? || tool.decision.None? || tool.decision.value.kind != Approved then None
      else Some(tool.(startedAt := Some(at)))
    case FinishTool(r, at) =>
      if !r.Valid() || tool.invocation.call.name != r.toolName || !LegalTerminal(tool, r) then None
      else Some(tool.(terminal := Some(r), terminalAt := Some(at)))
    case _ => None
  }

  function EditedCall(edit: TurnEdit): CallId
    requires edit.DecideTool? || edit.StartTool? || edit.FinishTool?
  {
    match edit
    case DecideTool(d, _) => d.callId
    case StartTool(c, _) => c
    case FinishTool(r, _) => r.callId
  }

  function FreshTool(invocation: ToolInvocation, at: nat): ToolRecord {
    ToolRecord(invocation, at, None, None, None, None, None)
  }

  function WithDelta(message: Option<VisibleMessage>, delta: string): VisibleMessage {
    if message.Some? then message.value.(content := message.value.content + delta)
    else VisibleMessage(Assistant, delta, true)
  }

  function EditTurn(turn: TurnRecord, edit: TurnEdit): Option<TurnRecord> {
    if turn.status != Running then None else
    match edit
    case AppendDelta(delta) =>
      Some(turn.(assistantMessage := Some(WithDelta(turn.assistantMessage, delta))))
    case Finish(receipt, message, at) =>
      if turn.requestId != receipt.requestId || !AllClosed(turn.tools) then None
      else Some(turn.(status := TurnStatusOf(receipt.outcome), completedAt := Some(at),
                      assistantMessage := message, usage := receipt.usage, receipt := Some(receipt)))
    case RequestTool(invocation, at) =>
      if !invocation.call.arguments.Valid() || ToolIndex(turn.tools, invocation.call.callId) < |turn.tools|
      then None
      else Some(turn.(tools := turn.tools + [FreshTool(invocation, at)]))
    case _ =>
      var k := ToolIndex(turn.tools, EditedCall(edit));
      if k == |turn.tools| then None else
      var tool := EditTool(turn.tools[k], edit);
      if tool.None? then None else Some(turn.(tools := turn.tools[k := tool.value]))
  }

  function PutTurn(s: SessionRecord, i: nat, turn: TurnRecord, at: nat): SessionRecord
    requires i < |s.turns|
  {
    s.(turns := s.turns[i := turn], updatedAt := at)
  }

  function EditSession(j: Journal, sid: SessionId, tid: TurnId, edit: TurnEdit, at: nat): Option<Journal> {
    if sid !in j.sessions then None else
    var s := j.sessions[sid];
    var i := TurnIndex(s.turns, tid);
    if i == |s.turns| then None else
    var turn := EditTurn(s.turns[i], edit);
    if turn.None? then None
    else Some(j.(sessions := j.sessions[sid := PutTurn(s, i, turn.value, at)]))
  }

  function Create(j: Journal, session: SessionRecord): Option<Journal> {
    if session.sessionId in j.sessions then None
    else
      var archived := map sid | sid in j.sessions :: j.sessions[sid].(status := Archived);
      Some(Journal(archived[session.sessionId := session], Some(session.sessionId)))
  }

  function Activate(j: Journal, sid: SessionId, at: nat): Option<Journal> {
    if sid !in j.sessions then None
    else
      Some(Journal(
             map k | k in j.sessions ::
               var s := j.sessions[k];
               if s.sessionId == sid then s.(status := Active, updatedAt := at) else s.(status := Archived),
             Some(sid)))
  }

  function Start(j: Journal, sid: SessionId, binding: ModelBinding, turn: TurnRecord): Option<Journal> {
    if sid !in j.sessions then None else
    var s := j.sessions[sid];
    if || s.binding != binding || turn.status != Running
       || (exists i :: 0 <= i < |s.turns| &&
                       (s.turns[i].turnId == turn.turnId || s.turns[i].requestId == turn.requestId))
    then None
    else Some(j.(sessions := j.sessions[sid := s.(turns := s.turns + [turn], updatedAt := turn.startedAt)]))
  }

  predicate CoversRetained(turns: seq<TurnRecord>, retained: seq<RecentTurn>) {
    forall r :: 0 <= r < |retained| ==>
      exists i :: 0 <= i < |turns| && turns[i].turnId == retained[r].turnId && turns[i].status == TurnCompleted
  }

  function StoreCompaction(j: Journal, sid: SessionId, c: CompactionRecord, at: nat): Option<Journal> {
    if sid !in j.sessions then None else
    var s := j.sessions[sid];
    var covered := CompletedIndex(s.turns, c.coveredThrough);
    if covered == |s.turns| || !CoversRetained(s.turns[..covered + 1], c.recentTurns) then None
    else if s.compaction.Some? &&
            (var before := TurnIndex(s.turns, s.compaction.value.coveredThrough);
             || before == |s.turns|
             || s.compaction.value.compactionId == c.compactionId
             || before >= covered)
    then None
    else
      var pointer := CompactionPointer(c.compactionId, c.coveredThrough);
      Some(j.(sessions := j.sessions[sid := s.(compaction := Some(pointer), updatedAt := at)]))
  }

  function EndTurn(j: Journal, sid: SessionId, receipt: TurnReceipt, message: Option<VisibleMessage>, at: nat)
    : Option<Journal>
  {
    if receipt.sessionId != sid then None
    else EditSession(j, sid, receipt.turnId, Finish(receipt, message, at), at)
  }

  /** The journal after one record, or None when the record is refused. */
  function ApplyRecord(j: Journal, record: JournalRecord): Option<Journal> {
    match record
    case SessionCreated(session) => Create(j, session)
    case SessionActivated(sid, at) => Activate(j, sid, at)
    case TurnStarted(sid, binding, turn) => Start(j, sid, binding, turn)
    case TurnDelta(sid, tid, delta, at) => EditSession(j, sid, tid, AppendDelta(delta), at)
    case TurnTerminal(sid, receipt, message, at) => EndTurn(j, sid, receipt, message, at)
    case ToolRequested(sid, tid, invocation, at) => EditSession(j, sid, tid, RequestTool(invocation, at), at)
    case ToolDecided(sid, tid, decision, at) => EditSession(j, sid, tid, DecideTool(decision, at), at)
    case ToolStarted(sid, tid, callId, at) => EditSession(j, sid, tid, StartTool(callId, at), at)
    case ToolTerminal(sid, tid, result, at) => EditSession(j, sid, tid, FinishTool(result, at), at)
    case RecoveryApplied(sid, receipt, message, at) => EndTurn(j, sid, receipt, message, at)
    case CompactionStored(sid, c, at) => StoreCompaction(j, sid, c, at)
    case TraceStored(sid, _) => if sid in j.sessions then Some(j) else None
  }

  // ---------------------------------------------------------------- logs

  /** Replaying a record: a known identical record is skipped, a known different one is refused. */
  function ReplayOne(m: Machine, env: Envelope): Option<Machine> {
    if env.recordId in m.seen then
      if m.seen[env.recordId] == env then Some(m) else None
    else
      var j := ApplyRecord(m.journal, env.record);
      if j.None? then None else Some(Machine(j.value, m.seen[env.recordId := env]))
  }

  function Replay(m: Machine, log: seq<Envelope>): Option<Machine> {
    if log == [] then Some(m) else
    var before := Replay(m, log[..|log| - 1]);
    if before.None? then None else ReplayOne(before.value, log[|log| - 1])
  }

  // ---------------------------------------------------------------- commands

  datatype Summary = Summary(sessionId: SessionId, status: SessionStatus, updatedAt: nat, turnCount: nat)

  /** What the driver reports about a running turn: the source's RecordDelta, RecordToolRequested,
      RecordToolDecision, RecordToolStarted and RecordToolTerminal commands. */
  datatype TurnReport =
    | Delta(delta: string)
    | Requested(invocation: ToolInvocation)
    | Decided(decision: ToolDecision)
    | Started(callId: CallId)
    | Terminal(result: ToolResult)

  datatype Command =
    | CreateSession(recordId: RecordId, sessionId: SessionId, binding: ModelBinding, now: nat)
    | ListSessions
    | Resume(recordId: RecordId, sessionId: SessionId, now: nat)
    | Continue(recordId: RecordId, turnId: TurnId, requestId: RequestId, input: string,
               maxOutputTokens: nat, now: nat)
    | Report(recordId: RecordId, turnId: TurnId, report: TurnReport, now: nat)
    | Interrupt(recordId: RecordId, turnId: TurnId, partialText: Option<string>, now: nat)
    | Retry(recordId: RecordId, sourceTurnId: TurnId, turnId: TurnId, requestId: RequestId,
            maxOutputTokens: nat, now: nat)
    | Finalize(recordId: RecordId, receipt: TurnReceipt, content: Option<string>, now: nat)
    | Recover(recordId: RecordId, turnId: TurnId, partialText: Option<string>, now: nat)
    | ReplayRecord(envelope: Envelope)

  datatype Effect =
    | Persist(envelope: Envelope)
    | Listed(summaries: map<SessionId, Summary>)
    | Activated(sessionId: SessionId)
    | BeginTurn(request: TurnRequest)
    | AbortTurn(turnId: TurnId)
    | Finalized(receipt: TurnReceipt)

  type Reply = Result<seq<Effect>, RuntimeErrorCode>

  function Summaries(j: Journal): map<SessionId, Summary> {
    map sid | sid in j.sessions ::
      var s := j.sessions[sid]; Summary(s.sessionId, s.status, s.updatedAt, |s.turns|)
  }

  function InterruptedReceipt(j: Journal, tid: TurnId): Result<TurnReceipt, RuntimeErrorCode> {
    var sid := RunningSession(j, tid);
    if sid.None? then Err(Recovery) else
    var s := j.sessions[sid.value];
    var turn := s.turns[TurnIndex(s.turns, tid)];
    Ok(TurnReceipt(s.sessionId, turn.turnId, turn.requestId, WasInterrupted, turn.usage))
  }

  function PartialMessage(content: Option<string>): Option<VisibleMessage> {
    if content.Some? then Some(VisibleMessage(Assistant, content.value, true)) else None
  }

  function NewSession(sid: SessionId, binding: ModelBinding, now: nat): SessionRecord {
    SessionRecord(sid, now, now, Active, binding, [], None)
  }

  predicate Journals(c: Command) {
    !c.ListSessions? && !c.Continue? && !c.Retry? && !c.ReplayRecord?
  }

  /** The record a command asks to journal; turn starts, lists and replays have none. */
  function CommandRecord(j: Journal, c: Command): Result<JournalRecord, RuntimeErrorCode>
    requires Journals(c)
  {
    match c
    case CreateSession(_, sid, binding, now) =>
      if sid in j.sessions then Err(Recovery) else Ok(SessionCreated(NewSession(sid, binding, now)))
    case Resume(_, sid, now) =>
      if AnyBusy(j) then Err(WorkspaceBusy)
      else if sid !in j.sessions then Err(Recovery)
      else Ok(SessionActivated(sid, now))
    case Interrupt(_, tid, text, now) =>
      var receipt :- InterruptedReceipt(j, tid);
      Ok(TurnTerminal(receipt.sessionId, receipt, PartialMessage(text), now))
    case Recover(_, tid, text, now) =>
      var receipt :- InterruptedReceipt(j, tid);
      Ok(RecoveryApplied(receipt.sessionId, receipt, PartialMessage(text), now))
    case Finalize(_, receipt, content, now) =>
      if RunningSession(j, receipt.turnId).None? then Err(Recovery) else
      var message := if content.Some?
                     then Some(VisibleMessage(Assistant, content.value, receipt.outcome != Completed))
                     else None;
      Ok(TurnTerminal(receipt.sessionId, receipt, message, now))
    case Report(_, tid, report, now) =>
      var sid := RunningSession(j, tid);
      if sid.None? then Err(Recovery) else
      var id := j.sessions[sid.value].sessionId;
      Ok(match report
         case Delta(delta) => TurnDelta(id, tid, delta, now)
         case Requested(invocation) => ToolRequested(id, tid, invocation, now)
         case Decided(decision) => ToolDecided(id, tid, decision, now)
         case Started(callId) => ToolStarted(id, tid, callId, now)
         case Terminal(result) => ToolTerminal(id, tid, result, now))
  }

  /** What follows the Persist effect. */
  function AfterPersist(c: Command, record: JournalRecord): seq<Effect> {
    match c
    case Resume(_, sid, _) => [Activated(sid)]
    case Interrupt(_, tid, _, _) => [AbortTurn(tid)]
    case Recover(_, _, _, _) => if record.RecoveryApplied? then [Finalized(record.receipt)] else []
    case Finalize(_, receipt, _, _) => [Finalized(receipt)]
    case _ => []
  }

  function PersistRecord(m: Machine, env: Envelope, after: seq<Effect>): (Machine, Reply) {
    if env.recordId in m.seen then
      (m, if m.seen[env.recordId] == env then Ok([]) else Err(Recovery))
    else
      var j := ApplyRecord(m.journal, env.record);
      if j.None? then (m, Err(Recovery))
      else (Machine(j.value, m.seen[env.recordId := env]), Ok([Effect.Persist(env)] + after))
  }

  /** Earlier completed exchanges, then the new user message. */
  function History(turns: seq<TurnRecord>, except: TurnId): seq<ConversationItem> {
    if turns == [] then [] else
    var t := turns[|turns| - 1];
    History(turns[..|turns| - 1], except) +
    if t.turnId == except || t.status != TurnCompleted then []
    else
      [Message(User, t.userMessage.content)] +
      if t.assistantMessage.Some? && !t.assistantMessage.value.partial
      then [Message(Assistant, t.assistantMessage.value.content)] else []
  }

  function RequestFor(s: SessionRecord, turn: TurnRecord, binding: ModelBinding, maxOutputTokens: nat)
    : TurnRequest
  {
    TurnRequest(s.sessionId, turn.turnId, turn.requestId, binding,
                History(s.turns, turn.turnId) + [Message(User, turn.userMessage.content)],
                [], None, maxOutputTokens)
  }

  function NewTurn(tid: TurnId, rid: RequestId, now: nat, retryOf: Option<TurnId>, input: string): TurnRecord {
    TurnRecord(tid, rid, now, None, retryOf, Running, VisibleMessage(User, input, false),
               None, None, None, [])
  }

  /** The guards of a turn start: the active session and the record to apply, or the error. */
  function StartGuards(j: Journal, tid: TurnId, rid: RequestId, input: string)
    : Result<SessionRecord, RuntimeErrorCode>
  {
    if AnyBusy(j) then Err(WorkspaceBusy)
    else if IsBlank(input) then Err(Configuration)
    else if ActiveSession(j).None? then Err(Recovery)
    else
      var s := ActiveSession(j).value;
      if exists i :: 0 <= i < |s.turns| && (s.turns[i].turnId == tid || s.turns[i].requestId == rid)
      then Err(Recovery)
      else Ok(s)
  }

  /** Starting a turn applies and remembers its record before it looks at the request,
      and never asks whether the record id was seen before. */
  ghost function StartTurn(m: Machine, recordId: RecordId, turn: TurnRecord, maxOutputTokens: nat): (Machine, Reply) {
    match StartGuards(m.journal, turn.turnId, turn.requestId, turn.userMessage.content)
    case Err(e) => (m, Err(e))
    case Ok(s) =>
      var env := Envelope(recordId, TurnStarted(s.sessionId, s.binding, turn));
      var j := ApplyRecord(m.journal, env.record);
      if j.None? then (m, Err(Recovery)) else
      var m' := Machine(j.value, m.seen[recordId := env]);
      if ActiveSession(j.value).None? then (m', Err(Recovery)) else
      var request := RequestFor(ActiveSession(j.value).value, turn, s.binding, maxOutputTokens);
      (m', if ValidRequest(request) then Ok([Effect.Persist(env), BeginTurn(request)]) else Err(Configuration))
  }

  /** The turn a Continue or Retry wants to start. */
  function TurnToStart(j: Journal, c: Command): Result<TurnRecord, RuntimeErrorCode>
    requires c.Continue? || c.Retry?
  {
    match c
    case Continue(_, tid, rid, input, _, now) => Ok(NewTurn(tid, rid, now, None, input))
    case Retry(_, source, tid, rid, _, now) =>
      var t := FindTurn(j, source);
      if t.None? then Err(Recovery)
      else if t.value.status == Running || AnyBusy(j) then Err(WorkspaceBusy)
      else Ok(NewTurn(tid, rid, now, Some(source), t.value.userMessage.content))
  }

  function JournalCommand(m: Machine, c: Command): (Machine, Reply)
    requires Journals(c)
  {
    var record := CommandRecord(m.journal, c);
    if record.Err? then (m, Err(record.error)) else
    var (m', reply) := PersistRecord(m, Envelope(c.recordId, record.value), AfterPersist(c, record.value));
    if c.Interrupt? && reply.Ok? then (m', Ok(reply.value + [Finalized(record.value.receipt)]))
    else (m', reply)
  }

  /** One command: the machine after it and the reply. */
  ghost function Step(m: Machine, c: Command): (Machine, Reply) {
    if c.ListSessions? then (m, Ok([Listed(Summaries(m.journal))]))
    else if c.ReplayRecord? then
      var r := ReplayOne(m, c.envelope);
      if r.None? then (m, Err(Recovery)) else (r.value, Ok([]))
    else if c.Continue? || c.Retry? then
      var turn := TurnToStart(m.journal, c);
      if turn.Err? then (m, Err(turn.error)) else StartTurn(m, c.recordId, turn.value, c.maxOutputTokens)
    else JournalCommand(m, c)
  }

  /** The records a reply asks to journal. */
  function Persisted(reply: Reply): seq<Envelope> {
    if reply.Err? then [] else PersistedIn(reply.value)
  }

  function PersistedIn(effects: seq<Effect>): seq<Envelope> {
    if effects == [] then []
    else (if effects[0].Persist? then [effects[0].envelope] else []) + PersistedIn(effects[1..])
  }
}
