/** The session reducer as the runtime runs it: one object, updated in place. */
module SessionMachines {
  import opened Protocol
  import opened Requests
  import opened Session

  /** What a refusable update did: it was accepted and reached `expected`, or nothing changed. */
  ghost predicate Became(before: Journal, expected: Option<Journal>, ok: bool, after: Journal) {
    ok == expected.Some? && after == if ok then expected.value else before
  }

  method Position(turns: seq<TurnRecord>, tid: TurnId) returns (i: nat)
    ensures i == TurnIndex(turns, tid)
  {
    i := 0;
    while i < |turns| && turns[i].turnId != tid
      invariant i <= |turns|
      invariant forall k :: 0 <= k < i ==> turns[k].turnId != tid
    {
      i := i + 1;
    }
  }

  method CompletedPosition(turns: seq<TurnRecord>, tid: TurnId) returns (i: nat)
    ensures i == CompletedIndex(turns, tid)
  {
    i := 0;
    while i < |turns| && !(turns[i].turnId == tid && turns[i].status == TurnCompleted)
      invariant i <= |turns|
      invariant forall k :: 0 <= k < i ==> !(turns[k].turnId == tid && turns[k].status == TurnCompleted)
    {
      i := i + 1;
    }
  }

  method ToolPosition(tools: seq<ToolRecord>, callId: CallId) returns (i: nat)
    ensures i == ToolIndex(tools, callId)
  {
    i := 0;
    while i < |tools| && tools[i].invocation.call.callId != callId
      invariant i <= |tools|
      invariant forall k :: 0 <= k < i ==> tools[k].invocation.call.callId != callId
    {
      i := i + 1;
    }
  }

  class SessionMachine {
    var sessions: map<SessionId, SessionRecord>
    var activeSessionId: Option<SessionId>
    var seenRecords: map<RecordId, Envelope>

    ghost function Project(): Journal
      reads this
    {
      Journal(sessions, activeSessionId)
    }

    ghost function View(): Machine
      reads this
    {
      Machine(Project(), seenRecords)
    }

    constructor ()
      ensures View() == EMPTY
    {
      sessions, activeSessionId, seenRecords := map[], None, map[];
    }

    constructor Clone(other: SessionMachine)
      ensures View() == other.View()
    {
      sessions := other.sessions;
      activeSessionId := other.activeSessionId;
      seenRecords := other.seenRecords;
    }

    static method FromLog(records: seq<Envelope>) returns (r: Option<SessionMachine>)
      ensures r.Some? <==> Replay(EMPTY, records).Some?
      ensures r.Some? ==> fresh(r.value) && Replay(EMPTY, records) == Some(r.value.View())
    {
      var machine := new SessionMachine();
      for i := 0 to |records|
        invariant fresh(machine)
        invariant Replay(EMPTY, records[..i]) == Some(machine.View())
      {
        assert records[..i + 1][..i] == records[..i];
        var reply := machine.ReplayEnvelope(records[i]);
        if reply.Err? {
          PrefixReplays(records, i + 1);
          return None;
        }
      }
      assert records[..|records|] == records;
      return Some(machine);
    }

    method ReplayEnvelope(env: Envelope) returns (reply: Reply)
      modifies this
      ensures (View(), reply) == Step(old(View()), ReplayRecord(env))
    {
      if env.recordId in seenRecords {
        return if seenRecords[env.recordId] == env then Ok([]) else Err(Recovery);
      }
      var ok := Apply(env.record);
      if !ok {
        return Err(Recovery);
      }
      seenRecords := seenRecords[env.recordId := env];
      return Ok([]);
    }

    // -------------------------------------------------------------- records, in place

    method SetTurn(sid: SessionId, i: nat, turn: TurnRecord)
      requires sid in sessions && i < |sessions[sid].turns|
      modifies this`sessions
      ensures sessions == old(sessions)[sid := old(sessions)[sid].(turns := old(sessions)[sid].turns[i := turn])]
    {
      var s := sessions[sid];
      sessions := sessions[sid := s.(turns := s.turns[i := turn])];
    }

    method Touch(sid: SessionId, at: nat)
      requires sid in sessions
      modifies this`sessions
      ensures sessions == old(sessions)[sid := old(sessions)[sid].(updatedAt := at)]
    {
      sessions := sessions[sid := sessions[sid].(updatedAt := at)];
    }

    method FindTurnMut(sid: SessionId, tid: TurnId) returns (i: Option<nat>)
      ensures i.Some? <==> sid in sessions && TurnIndex(sessions[sid].turns, tid) < |sessions[sid].turns|
      ensures i.Some? ==> i.value == TurnIndex(sessions[sid].turns, tid)
    {
      if sid !in sessions {
        return None;
      }
      var k := Position(sessions[sid].turns, tid);
      return if k == |sessions[sid].turns| then None else Some(k);
    }

    method ApplyDelta(sid: SessionId, tid: TurnId, delta: string, at: nat) returns (ok: bool)
      modifies this`sessions
      ensures Became(old(Project()), EditSession(old(Project()), sid, tid, AppendDelta(delta), at), ok, Project())
    {
      var i := FindTurnMut(sid, tid);
      if i.None? || sessions[sid].turns[i.value].status != Running {
        return false;
      }
      var turn := sessions[sid].turns[i.value];
      var message := if turn.assistantMessage.Some? then turn.assistantMessage.value
                     else VisibleMessage(Assistant, "", true);
      assert turn.assistantMessage.None? ==> message.content + delta == delta;
      SetTurn(sid, i.value, turn.(assistantMessage := Some(message.(content := message.content + delta))));
      Touch(sid, at);
      return true;
    }

    method ApplyTerminal(sid: SessionId, receipt: TurnReceipt, message: Option<VisibleMessage>, at: nat)
      returns (ok: bool)
      modifies this`sessions
      ensures Became(old(Project()), EndTurn(old(Project()), sid, receipt, message, at), ok, Project())
    {
      if receipt.sessionId != sid {
        return false;
      }
      var i := FindTurnMut(sid, receipt.turnId);
      if i.None? {
        return false;
      }
      var turn := sessions[sid].turns[i.value];
      if || turn.status != Running || turn.requestId != receipt.requestId
         || exists k :: 0 <= k < |turn.tools| && turn.tools[k].terminal.None?
      {
        return false;
      }
      SetTurn(sid, i.value,
              turn.(status := TurnStatusOf(receipt.outcome), completedAt := Some(at),
                    assistantMessage := message, usage := receipt.usage, receipt := Some(receipt)));
      Touch(sid, at);
      return true;
    }

    method ApplyToolRequested(sid: SessionId, tid: TurnId, invocation: ToolInvocation, at: nat) returns (ok: bool)
      modifies this`sessions
      ensures Became(old(Project()), EditSession(old(Project()), sid, tid, RequestTool(invocation, at), at), ok,
                     Project())
    {
      if !invocation.call.arguments.Valid() {
        return false;
      }
      var i := FindTurnMut(sid, tid);
      if i.None? {
        return false;
      }
      var turn := sessions[sid].turns[i.value];
      var k := ToolPosition(turn.tools, invocation.call.callId);
      if turn.status != Running || k < |turn.tools| {
        return false;
      }
      SetTurn(sid, i.value, turn.(tools := turn.tools + [FreshTool(invocation, at)]));
      Touch(sid, at);
      return true;
    }

    /** Finds a tool of a running turn. */
    method FindToolMut(sid: SessionId, tid: TurnId, callId: CallId) returns (r: Option<(nat, nat)>)
      ensures r.Some? ==>
                && sid in sessions
                && r.value.0 == TurnIndex(sessions[sid].turns, tid) < |sessions[sid].turns|
                && var turn := sessions[sid].turns[r.value.0];
                && turn.status == Running
                && r.value.1 == ToolIndex(turn.tools, callId) < |turn.tools|
      ensures r.None? ==>
                forall edit: TurnEdit, at: nat :: (edit.DecideTool? || edit.StartTool? || edit.FinishTool?)
                                   && EditedCall(edit) == callId
                                   ==> EditSession(Project(), sid, tid, edit, at).None?
    {
      var i := FindTurnMut(sid, tid);
      if i.None? || sessions[sid].turns[i.value].status != Running {
        return None;
      }
      var k := ToolPosition(sessions[sid].turns[i.value].tools, callId);
      return if k == |sessions[sid].turns[i.value].tools| then None else Some((i.value, k));
    }

    method ApplyToolDecided(sid: SessionId, tid: TurnId, decision: ToolDecision, at: nat) returns (ok: bool)
      modifies this`sessions
      ensures Became(old(Project()), EditSession(old(Project()), sid, tid, DecideTool(decision, at), at), ok, Project())
    {
      var r := FindToolMut(sid, tid, decision.callId);
      if !decision.Valid() || r.None? {
        return false;
      }
      var turn := sessions[sid].turns[r.value.0];
      var tool := turn.tools[r.value.1];
      if tool.decision.Some? || tool.startedAt.Some? || tool.terminal.Some? {
        return false;
      }
      SetTurn(sid, r.value.0,
              turn.(tools := turn.tools[r.value.1 := tool.(decision := Some(decision), decisionAt := Some(at))]));
      Touch(sid, at);
      return true;
    }

    method ApplyToolStarted(sid: SessionId, tid: TurnId, callId: CallId, at: nat) returns (ok: bool)
      modifies this`sessions
      ensures Became(old(Project()), EditSession(old(Project()), sid, tid, StartTool(callId, at), at), ok, Project())
    {
      var r := FindToolMut(sid, tid, callId);
      if r.None? {
        return false;
      }
      var turn := sessions[sid].turns[r.value.0];
      var tool := turn.tools[r.value.1];
      if || tool.startedAt.Some? || tool.terminal.Some?
         || tool.decision.None? || tool.decision.value.kind != Approved
      {
        return false;
      }
      SetTurn(sid, r.value.0, turn.(tools := turn.tools[r.value.1 := tool.(startedAt := Some(at))]));
      Touch(sid, at);
      return true;
    }

    method ApplyToolTerminal(sid: SessionId, tid: TurnId, result: ToolResult, at: nat) returns (ok: bool)
      modifies this`sessions
      ensures Became(old(Project()), EditSession(old(Project()), sid, tid, FinishTool(result, at), at), ok, Project())
    {
      var r := FindToolMut(sid, tid, result.callId);
      if !result.Valid() || r.None? {
        return false;
      }
      var turn := sessions[sid].turns[r.value.0];
      var tool := turn.tools[r.value.1];
      if tool.terminal.Some? || tool.invocation.call.name != result.toolName || !LegalTerminal(tool, result) {
        return false;
      }
      SetTurn(sid, r.value.0,
              turn.(tools := turn.tools[r.value.1 := tool.(terminal := Some(result), terminalAt := Some(at))]));
      Touch(sid, at);
      return true;
    }

    method ApplyCreated(session: SessionRecord) returns (ok: bool)
      modifies this`sessions, this`activeSessionId
      ensures Became(old(Project()), Create(old(Project()), session), ok, Project())
    {
      if session.sessionId in sessions {
        return false;
      }
      sessions := map sid | sid in sessions :: sessions[sid].(status := Archived);
      activeSessionId := Some(session.sessionId);
      sessions := sessions[session.sessionId := session];
      return true;
    }

    method ApplyActivated(sid: SessionId, at: nat) returns (ok: bool)
      modifies this`sessions, this`activeSessionId
      ensures Became(old(Project()), Activate(old(Project()), sid, at), ok, Project())
    {
      if sid !in sessions {
        return false;
      }
      sessions := map k | k in sessions ::
        if sessions[k].sessionId == sid then sessions[k].(status := Active, updatedAt := at)
        else sessions[k].(status := Archived);
      activeSessionId := Some(sid);
      return true;
    }

    method ApplyTurnStarted(sid: SessionId, binding: ModelBinding, turn: TurnRecord) returns (ok: bool)
      modifies this`sessions
      ensures Became(old(Project()), Start(old(Project()), sid, binding, turn), ok, Project())
    {
      if sid !in sessions {
        return false;
      }
      var s := sessions[sid];
      if || s.binding != binding || turn.status != Running
         || (exists i :: 0 <= i < |s.turns| &&
                         (s.turns[i].turnId == turn.turnId || s.turns[i].requestId == turn.requestId))
      {
        return false;
      }
      sessions := sessions[sid := s.(turns := s.turns + [turn], updatedAt := turn.startedAt)];
      return true;
    }

    method ApplyCompaction(sid: SessionId, c: CompactionRecord, at: nat) returns (ok: bool)
      modifies this`sessions
      ensures Became(old(Project()), StoreCompaction(old(Project()), sid, c, at), ok, Project())
    {
      if sid !in sessions {
        return false;
      }
      var s := sessions[sid];
      var covered := CompletedPosition(s.turns, c.coveredThrough);
      if covered == |s.turns| || !CoversRetained(s.turns[..covered + 1], c.recentTurns) {
        return false;
      }
      if s.compaction.Some? {
        var before := Position(s.turns, s.compaction.value.coveredThrough);
        if before == |s.turns| || s.compaction.value.compactionId == c.compactionId || before >= covered {
          return false;
        }
      }
      sessions := sessions[sid := s.(compaction := Some(CompactionPointer(c.compactionId, c.coveredThrough)),
                                     updatedAt := at)];
      return true;
    }

    /** Applies one record; a refused record changes nothing. */
    method Apply(record: JournalRecord) returns (ok: bool)
      modifies this`sessions, this`activeSessionId
      ensures Became(old(Project()), ApplyRecord(old(Project()), record), ok, Project())
    {
      hide EditSession, EndTurn, Create, Activate, Start, StoreCompaction;
      match record {
        case SessionCreated(session) => ok := ApplyCreated(session);
        case SessionActivated(sid, at) => ok := ApplyActivated(sid, at);
        case TurnStarted(sid, binding, turn) => ok := ApplyTurnStarted(sid, binding, turn);
        case TurnDelta(sid, tid, delta, at) => ok := ApplyDelta(sid, tid, delta, at);
        case TurnTerminal(sid, receipt, message, at) => ok := ApplyTerminal(sid, receipt, message, at);
        case ToolRequested(sid, tid, invocation, at) => ok := ApplyToolRequested(sid, tid, invocation, at);
        case ToolDecided(sid, tid, decision, at) => ok := ApplyToolDecided(sid, tid, decision, at);
        case ToolStarted(sid, tid, callId, at) => ok := ApplyToolStarted(sid, tid, callId, at);
        case ToolTerminal(sid, tid, result, at) => ok := ApplyToolTerminal(sid, tid, result, at);
        case RecoveryApplied(sid, receipt, message, at) => ok := ApplyTerminal(sid, receipt, message, at);
        case CompactionStored(sid, c, at) => ok := ApplyCompaction(sid, c, at);
        case TraceStored(sid, _) => ok := sid in sessions;
      }
    }

    // -------------------------------------------------------------- commands

    method PersistEnvelope(env: Envelope, after: seq<Effect>) returns (reply: Reply)
      modifies this
      ensures (View(), reply) == PersistRecord(old(View()), env, after)
    {
      if env.recordId in seenRecords {
        return if seenRecords[env.recordId] == env then Ok([]) else Err(Recovery);
      }
      var ok := Apply(env.record);
      if !ok {
        return Err(Recovery);
      }
      seenRecords := seenRecords[env.recordId := env];
      return Ok([Effect.Persist(env)] + after);
    }

    /** Applies and remembers the record first; the request is built and checked only afterwards. */
    method Begin(recordId: RecordId, turn: TurnRecord, maxOutputTokens: nat) returns (reply: Reply)
      modifies this
      ensures (View(), reply) == StartTurn(old(View()), recordId, turn, maxOutputTokens)
    {
      hide ApplyRecord, ValidRequest;
      var j := Journal(sessions, activeSessionId);
      var s := StartGuards(j, turn.turnId, turn.requestId, turn.userMessage.content);
      if s.Err? {
        return Err(s.error);
      }
      var env := Envelope(recordId, TurnStarted(s.value.sessionId, s.value.binding, turn));
      var ok := Apply(env.record);
      if !ok {
        return Err(Recovery);
      }
      seenRecords := seenRecords[recordId := env];
      var active := ActiveSession(Journal(sessions, activeSessionId));
      if active.None? {
        return Err(Recovery);
      }
      var request := RequestFor(active.value, turn, s.value.binding, maxOutputTokens);
      var valid := ValidateRequest(request);
      return if valid then Ok([Effect.Persist(env), BeginTurn(request)]) else Err(Configuration);
    }

    /** One command, as the step function says. */
    method Execute(c: Command) returns (reply: Reply)
      modifies this
      ensures (View(), reply) == Step(old(View()), c)
    {
      hide PersistRecord, StartTurn, ReplayOne, CommandRecord, TurnToStart;
      var j := Journal(sessions, activeSessionId);
      if c.ListSessions? {
        return Ok([Listed(Summaries(j))]);
      } else if c.ReplayRecord? {
        reply := ReplayEnvelope(c.envelope);
      } else if c.Continue? || c.Retry? {
        var turn := TurnToStart(j, c);
        if turn.Err? {
          return Err(turn.error);
        }
        reply := Begin(c.recordId, turn.value, c.maxOutputTokens);
      } else {
        var record := CommandRecord(j, c);
        if record.Err? {
          return Err(record.error);
        }
        reply := PersistEnvelope(Envelope(c.recordId, record.value), AfterPersist(c, record.value));
        if c.Interrupt? && reply.Ok? {
          InterruptRecord(j, c);
          return Ok(reply.value + [Finalized(record.value.receipt)]);
        }
      }
    }
  }

  lemma InterruptRecord(j: Journal, c: Command)
    requires c.Interrupt? && CommandRecord(j, c).Ok?
    ensures CommandRecord(j, c).value.TurnTerminal?
  {
  }

  /** A log that replays has no prefix that is refused. */
  lemma {:induction false} PrefixReplays(log: seq<Envelope>, n: nat)
    requires n <= |log|
    ensures Replay(EMPTY, log).Some? ==> Replay(EMPTY, log[..n]).Some?
  {
    if n < |log| {
      PrefixReplays(log[..|log| - 1], n);
      assert log[..|log| - 1][..n] == log[..n];
    } else {
      assert log[..n] == log;
    }
  }
}
