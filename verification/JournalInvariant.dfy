/** What every journal written by live commands keeps. */
module JournalInvariant {
  import opened Protocol
  import opened Requests
  import opened Session
  import opened JournalGrowth
  import opened ReplayLaws

  /** A tool ran only if approved, and its result is legal for how far it got. */
  ghost predicate ToolOk(t: ToolRecord) {
    && (t.decision.Some? ==> t.decision.value.callId == t.invocation.call.callId)
    && (t.startedAt.Some? ==> t.decision.Some? && t.decision.value.kind == Approved)
    && (t.terminal.Some? ==>
          && t.terminal.value.callId == t.invocation.call.callId
          && t.terminal.value.toolName == t.invocation.call.name
          && LegalTerminal(t, t.terminal.value))
  }

  ghost predicate DistinctCalls(tools: seq<ToolRecord>) {
    forall i, k :: 0 <= i < k < |tools| ==> tools[i].invocation.call.callId != tools[k].invocation.call.callId
  }

  ghost predicate ToolsOk(tools: seq<ToolRecord>) {
    DistinctCalls(tools) && forall k :: 0 <= k < |tools| ==> ToolOk(tools[k])
  }

  /** The status of an ended turn says how it ended. */
  ghost predicate EndedAs(status: TurnStatus, outcome: Outcome) {
    && (status == TurnCompleted <==> outcome == Completed)
    && (status == TurnFailed <==> outcome.FailedWith?)
    && (status == TurnInterrupted <==> outcome == WasInterrupted)
    && (status == TurnStopped <==> outcome == Stopped)
  }

  /** A running turn has no receipt; a terminal one has no open tool and the receipt of its own end. */
  ghost predicate TurnOk(sid: SessionId, turn: TurnRecord) {
    && ToolsOk(turn.tools)
    && (turn.status == Running ==> turn.receipt.None? && turn.completedAt.None?)
    && (turn.status != Running ==>
          && AllClosed(turn.tools) && turn.completedAt.Some? && turn.receipt.Some?
          && var r := turn.receipt.value;
          && r.sessionId == sid && r.turnId == turn.turnId && r.requestId == turn.requestId
          && EndedAs(turn.status, r.outcome) && turn.usage == r.usage)
  }

  ghost predicate TurnsOk(sid: SessionId, turns: seq<TurnRecord>) {
    && (forall i, k :: 0 <= i < k < |turns| ==>
          turns[i].turnId != turns[k].turnId && turns[i].requestId != turns[k].requestId)
    && (forall i :: 0 <= i < |turns| ==> TurnOk(sid, turns[i]))
    && (forall i :: 0 <= i < |turns| - 1 ==> turns[i].status != Running)
  }

  /** The compaction pointer names a completed turn. */
  ghost predicate PointerOk(s: SessionRecord) {
    s.compaction.Some? ==> CompletedIndex(s.turns, s.compaction.value.coveredThrough) < |s.turns|
  }

  ghost predicate SessionOk(sid: SessionId, s: SessionRecord) {
    s.sessionId == sid && TurnsOk(sid, s.turns) && PointerOk(s)
  }

  ghost predicate Runs(j: Journal, sid: SessionId) {
    sid in j.sessions && Busy(j.sessions[sid])
  }

  ghost predicate JournalOk(j: Journal) {
    && (forall sid :: sid in j.sessions ==> SessionOk(sid, j.sessions[sid]))
    && (forall sid :: sid in j.sessions ==> (j.sessions[sid].status == Active <==> j.active == Some(sid)))
    && (j.active.Some? ==> j.active.value in j.sessions)
    && (forall a, b :: Runs(j, a) && Runs(j, b) ==> a == b)
  }

  /** What the machine's own commands, and the store's compaction and trace appends, write. */
  ghost predicate Live(j: Journal, record: JournalRecord) {
    match record
    case SessionCreated(s) => s == NewSession(s.sessionId, s.binding, s.createdAt)
    case SessionActivated(_, _) => !AnyBusy(j)
    case TurnStarted(sid, _, t) =>
      && !AnyBusy(j) && j.active == Some(sid)
      && t == NewTurn(t.turnId, t.requestId, t.startedAt, t.retryOf, t.userMessage.content)
    case _ => true
  }

  // ---------------------------------------------------------------- single edits

  lemma EditToolKeepsOk(tool: ToolRecord, edit: TurnEdit)
    requires ToolOk(tool) && EditTool(tool, edit).Some?
    requires EditedCall(edit) == tool.invocation.call.callId
    ensures ToolOk(EditTool(tool, edit).value)
    ensures EditTool(tool, edit).value.invocation == tool.invocation
  {
  }

  lemma EditTurnKeepsOk(sid: SessionId, turn: TurnRecord, edit: TurnEdit)
    requires TurnOk(sid, turn) && EditTurn(turn, edit).Some?
    requires edit.Finish? ==> edit.receipt.sessionId == sid && edit.receipt.turnId == turn.turnId
    ensures TurnOk(sid, EditTurn(turn, edit).value)
  {
    if edit.DecideTool? || edit.StartTool? || edit.FinishTool? {
      var k := ToolIndex(turn.tools, EditedCall(edit));
      EditToolKeepsOk(turn.tools[k], edit);
    }
  }

  lemma CompletedStaysCompleted(a: seq<TurnRecord>, b: seq<TurnRecord>, tid: TurnId)
    requires TurnsGrow(a, b) && CompletedIndex(a, tid) < |a|
    ensures CompletedIndex(b, tid) == CompletedIndex(a, tid) || CompletedIndex(b, tid) < CompletedIndex(a, tid)
  {
    var i := CompletedIndex(a, tid);
    assert TurnGrows(a[i], b[i]);
  }

  lemma PutTurnKeepsOk(sid: SessionId, s: SessionRecord, i: nat, turn: TurnRecord, at: nat)
    requires SessionOk(sid, s) && i < |s.turns| && s.turns[i].status == Running
    requires TurnGrows(s.turns[i], turn) && TurnOk(sid, turn)
    ensures SessionOk(sid, PutTurn(s, i, turn, at))
  {
    var s' := PutTurn(s, i, turn, at);
    assert i == |s.turns| - 1;
    if s.compaction.Some? {
      PutTurnGrows(s, i, turn, at);
      CompletedStaysCompleted(s.turns, s'.turns, s.compaction.value.coveredThrough);
    }
  }

  lemma ReplaceSessionKeepsOk(j: Journal, sid: SessionId, s: SessionRecord)
    requires JournalOk(j) && sid in j.sessions && SessionOk(sid, s)
    requires s.status == j.sessions[sid].status
    requires Busy(s) ==> Busy(j.sessions[sid])
    ensures JournalOk(j.(sessions := j.sessions[sid := s]))
  {
    var j' := j.(sessions := j.sessions[sid := s]);
    forall a, b | Runs(j', a) && Runs(j', b) ensures a == b {
      assert Runs(j, a) && Runs(j, b);
    }
  }

  lemma EditSessionKeepsOk(j: Journal, sid: SessionId, tid: TurnId, edit: TurnEdit, at: nat)
    requires JournalOk(j) && EditSession(j, sid, tid, edit, at).Some?
    requires edit.Finish? ==> edit.receipt.sessionId == sid && edit.receipt.turnId == tid
    ensures JournalOk(EditSession(j, sid, tid, edit, at).value)
  {
    hide EditTurn, TurnOk;
    var s := j.sessions[sid];
    var i := TurnIndex(s.turns, tid);
    var turn := EditTurn(s.turns[i], edit).value;
    EditTurnGrows(s.turns[i], edit);
    EditTurnKeepsOk(sid, s.turns[i], edit);
    PutTurnKeepsOk(sid, s, i, turn, at);
    ReplaceSessionKeepsOk(j, sid, PutTurn(s, i, turn, at));
  }

  lemma StartKeepsOk(j: Journal, sid: SessionId, binding: ModelBinding, turn: TurnRecord)
    requires JournalOk(j) && Live(j, TurnStarted(sid, binding, turn))
    requires Start(j, sid, binding, turn).Some?
    ensures JournalOk(Start(j, sid, binding, turn).value)
  {
    var s := j.sessions[sid];
    var j' := Start(j, sid, binding, turn).value;
    var s' := j'.sessions[sid];
    forall i | 0 <= i < |s.turns| ensures s.turns[i].status != Running {
      assert Runs(j, sid) ==> AnyBusy(j);
    }
    assert TurnOk(sid, turn);
    if s.compaction.Some? {
      GrowsReflexive(j);
      CompletedStaysCompleted(s.turns, s'.turns, s.compaction.value.coveredThrough);
    }
    forall a | Runs(j', a) ensures a == sid {
      assert a != sid ==> Runs(j, a);
    }
  }

  lemma StoreCompactionKeepsOk(j: Journal, sid: SessionId, c: CompactionRecord, at: nat)
    requires JournalOk(j) && StoreCompaction(j, sid, c, at).Some?
    ensures JournalOk(StoreCompaction(j, sid, c, at).value)
  {
    var s := j.sessions[sid];
    ReplaceSessionKeepsOk(j, sid, s.(compaction := Some(CompactionPointer(c.compactionId, c.coveredThrough)),
                                     updatedAt := at));
  }

  lemma CreateKeepsOk(j: Journal, s: SessionRecord)
    requires JournalOk(j) && Live(j, SessionCreated(s)) && Create(j, s).Some?
    ensures JournalOk(Create(j, s).value)
  {
    var j' := Create(j, s).value;
    forall a | Runs(j', a) ensures Runs(j, a) {
    }
  }

  lemma ActivateKeepsOk(j: Journal, sid: SessionId, at: nat)
    requires JournalOk(j) && !AnyBusy(j) && Activate(j, sid, at).Some?
    ensures JournalOk(Activate(j, sid, at).value)
  {
    var j' := Activate(j, sid, at).value;
    forall a | Runs(j', a) ensures Runs(j, a) {
    }
  }

  lemma RecordKeepsOk(j: Journal, record: JournalRecord)
    requires JournalOk(j) && Live(j, record) && ApplyRecord(j, record).Some?
    ensures JournalOk(ApplyRecord(j, record).value)
  {
    hide JournalOk, EditSession, StoreCompaction, Create, Activate, Start;
    match record
    case SessionCreated(s) => CreateKeepsOk(j, s);
    case SessionActivated(sid, at) => ActivateKeepsOk(j, sid, at);
    case TurnStarted(sid, binding, turn) => StartKeepsOk(j, sid, binding, turn);
    case TurnDelta(sid, tid, delta, at) => EditSessionKeepsOk(j, sid, tid, AppendDelta(delta), at);
    case TurnTerminal(sid, receipt, message, at) =>
      EditSessionKeepsOk(j, sid, receipt.turnId, Finish(receipt, message, at), at);
    case RecoveryApplied(sid, receipt, message, at) =>
      EditSessionKeepsOk(j, sid, receipt.turnId, Finish(receipt, message, at), at);
    case ToolRequested(sid, tid, invocation, at) =>
      EditSessionKeepsOk(j, sid, tid, RequestTool(invocation, at), at);
    case ToolDecided(sid, tid, decision, at) =>
      EditSessionKeepsOk(j, sid, tid, DecideTool(decision, at), at);
    case ToolStarted(sid, tid, callId, at) => EditSessionKeepsOk(j, sid, tid, StartTool(callId, at), at);
    case ToolTerminal(sid, tid, result, at) => EditSessionKeepsOk(j, sid, tid, FinishTool(result, at), at);
    case CompactionStored(sid, c, at) => StoreCompactionKeepsOk(j, sid, c, at);
    case TraceStored(_, _) =>
  }

  // ---------------------------------------------------------------- commands and runs

  lemma CommandRecordIsLive(j: Journal, c: Command)
    requires Journals(c) && CommandRecord(j, c).Ok?
    ensures Live(j, CommandRecord(j, c).value)
  {
  }

  /** A command's effect on the journal is that of at most one live record. */
  lemma StepIsLive(m: Machine, c: Command)
    requires JournalOk(m.journal) && !c.ReplayRecord?
    ensures || Step(m, c).0.journal == m.journal
            || exists r :: Live(m.journal, r) && ApplyRecord(m.journal, r) == Some(Step(m, c).0.journal)
  {
    hide ApplyRecord;
    if c.Continue? || c.Retry? {
      StartIsLive(m, c);
    } else if !c.ListSessions? && CommandRecord(m.journal, c).Ok? {
      hide CommandRecord, Live;
      CommandRecordIsLive(m.journal, c);
    }
  }

  lemma StartIsLive(m: Machine, c: Command)
    requires JournalOk(m.journal) && (c.Continue? || c.Retry?)
    ensures || Step(m, c).0.journal == m.journal
            || exists r :: Live(m.journal, r) && ApplyRecord(m.journal, r) == Some(Step(m, c).0.journal)
  {
    hide ApplyRecord;
    var turn := TurnToStart(m.journal, c);
    if turn.Ok? {
      var t := turn.value;
      var s := StartGuards(m.journal, t.turnId, t.requestId, t.userMessage.content);
      if s.Ok? {
        assert SessionOk(m.journal.active.value, s.value);
        assert Live(m.journal, TurnStarted(s.value.sessionId, s.value.binding, t));
      }
    }
  }

  /** Every live command keeps the journal well-formed and only grows it, refused ones included. */
  lemma StepKeepsOk(m: Machine, c: Command)
    requires JournalOk(m.journal) && !c.ReplayRecord?
    ensures JournalOk(Step(m, c).0.journal) && Grows(m.journal, Step(m, c).0.journal)
  {
    hide JournalOk, Live, ApplyRecord, Step, Grows;
    StepIsLive(m, c);
    if Step(m, c).0.journal == m.journal {
      GrowsReflexive(m.journal);
    } else {
      var r :| Live(m.journal, r) && ApplyRecord(m.journal, r) == Some(Step(m, c).0.journal);
      RecordKeepsOk(m.journal, r);
      RecordGrows(m.journal, r);
    }
  }

  /** Storing a compaction moves the pointer strictly forward, under a new compaction id. */
  lemma CompactionAdvances(j: Journal, sid: SessionId, c: CompactionRecord, at: nat)
    requires JournalOk(j) && StoreCompaction(j, sid, c, at).Some? && j.sessions[sid].compaction.Some?
    ensures var before, after := j.sessions[sid], StoreCompaction(j, sid, c, at).value.sessions[sid];
            && before.compaction.value.compactionId != after.compaction.value.compactionId
            && CompletedIndex(before.turns, before.compaction.value.coveredThrough)
               < CompletedIndex(after.turns, after.compaction.value.coveredThrough)
               < |after.turns|
  {
  }

  /** Which turn the compaction pointer names. */
  ghost function PointerIndex(s: SessionRecord): nat
    requires s.compaction.Some?
  {
    CompletedIndex(s.turns, s.compaction.value.coveredThrough)
  }

  /** A pointer stays as it is, or has moved to a later turn. */
  ghost predicate PointerMoves(a: SessionRecord, b: SessionRecord) {
    a.compaction.Some? ==>
      && b.compaction.Some?
      && (if a.compaction == b.compaction then PointerIndex(a) == PointerIndex(b)
          else PointerIndex(a) < PointerIndex(b))
  }

  lemma PointerStays(sid: SessionId, a: SessionRecord, b: SessionRecord)
    requires SessionOk(sid, a) && SessionOk(sid, b) && SessionGrows(a, b) && a.compaction == b.compaction
    ensures PointerMoves(a, b)
  {
    if a.compaction.Some? {
      var i := PointerIndex(a);
      assert TurnGrows(a.turns[i], b.turns[i]);
    }
  }

  lemma EditKeepsPointer(j: Journal, sid: SessionId, tid: TurnId, edit: TurnEdit, at: nat, other: SessionId)
    requires EditSession(j, sid, tid, edit, at).Some? && other in j.sessions
    ensures EditSession(j, sid, tid, edit, at).value.sessions[other].compaction == j.sessions[other].compaction
  {
  }

  lemma SessionsOk(a: Journal, b: Journal, sid: SessionId)
    requires JournalOk(a) && JournalOk(b) && Grows(a, b) && sid in a.sessions
    ensures sid in b.sessions && SessionOk(sid, a.sessions[sid]) && SessionOk(sid, b.sessions[sid])
    ensures SessionGrows(a.sessions[sid], b.sessions[sid])
  {
  }

  /** What a record that is not a compaction of the session does to its pointer: nothing. */
  lemma OthersKeepPointer(j: Journal, r: JournalRecord, sid: SessionId)
    requires ApplyRecord(j, r).Some? && sid in j.sessions && sid in ApplyRecord(j, r).value.sessions
    requires r.CompactionStored? ==> r.sid != sid
    ensures ApplyRecord(j, r).value.sessions[sid].compaction == j.sessions[sid].compaction
  {
    hide EditSession;
    match r
    case TurnDelta(s, tid, delta, at) => EditKeepsPointer(j, s, tid, AppendDelta(delta), at, sid);
    case TurnTerminal(s, receipt, message, at) =>
      EditKeepsPointer(j, s, receipt.turnId, Finish(receipt, message, at), at, sid);
    case RecoveryApplied(s, receipt, message, at) =>
      EditKeepsPointer(j, s, receipt.turnId, Finish(receipt, message, at), at, sid);
    case ToolRequested(s, tid, invocation, at) => EditKeepsPointer(j, s, tid, RequestTool(invocation, at), at, sid);
    case ToolDecided(s, tid, decision, at) => EditKeepsPointer(j, s, tid, DecideTool(decision, at), at, sid);
    case ToolStarted(s, tid, callId, at) => EditKeepsPointer(j, s, tid, StartTool(callId, at), at, sid);
    case ToolTerminal(s, tid, result, at) => EditKeepsPointer(j, s, tid, FinishTool(result, at), at, sid);
    case _ =>
  }

  /** Every live record keeps each pointer where it is or moves it forward. */
  lemma RecordMovesPointers(j: Journal, r: JournalRecord, sid: SessionId)
    requires JournalOk(j) && Live(j, r) && ApplyRecord(j, r).Some? && sid in j.sessions
    ensures sid in ApplyRecord(j, r).value.sessions
    ensures PointerMoves(j.sessions[sid], ApplyRecord(j, r).value.sessions[sid])
  {
    hide JournalOk, SessionOk, Grows, SessionGrows, Live, EditSession, CompletedIndex;
    RecordKeepsOk(j, r);
    RecordGrows(j, r);
    var after := ApplyRecord(j, r).value;
    SessionsOk(j, after, sid);
    if r.CompactionStored? && r.sid == sid {
      if j.sessions[sid].compaction.Some? {
        CompactionAdvances(j, sid, r.compaction, r.at);
      }
    } else {
      hide ApplyRecord;
      OthersKeepPointer(j, r, sid);
      PointerStays(sid, j.sessions[sid], after.sessions[sid]);
    }
  }

  lemma PointerMovesOn(sid: SessionId, a: SessionRecord, b: SessionRecord, c: SessionRecord)
    requires PointerMoves(a, b) && PointerMoves(b, c)
    requires SessionOk(sid, a) && SessionOk(sid, c) && SessionGrows(a, c)
    ensures PointerMoves(a, c)
  {
    if a.compaction == c.compaction {
      PointerStays(sid, a, c);
    }
  }

  /** The empty journal is well-formed, so every run of live commands from it stays so. */
  lemma {:induction false} RunKeepsOk(m: Machine, commands: seq<Command>)
    requires JournalOk(m.journal)
    requires forall i :: 0 <= i < |commands| ==> !commands[i].ReplayRecord?
    ensures JournalOk(EMPTY.journal)
    ensures JournalOk(Run(m, commands).journal) && Grows(m.journal, Run(m, commands).journal)
  {
    if commands == [] {
      GrowsReflexive(m.journal);
    } else {
      hide JournalOk, Grows, Step;
      var before := commands[..|commands| - 1];
      RunKeepsOk(m, before);
      StepKeepsOk(Run(m, before), commands[|commands| - 1]);
      GrowsTransitive(m.journal, Run(m, before).journal, Run(m, commands).journal);
    }
  }
}
