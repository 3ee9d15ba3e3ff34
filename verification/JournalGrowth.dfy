/** The journal is write-once: what a record has fixed, no later record changes. */
module JournalGrowth {
  import opened Protocol
  import opened Session

  /** A decision, a start and a result are written at most once. */
  ghost predicate ToolGrows(a: ToolRecord, b: ToolRecord) {
    && a.invocation == b.invocation && a.requestedAt == b.requestedAt
    && (a.decision.Some? ==> a.decision == b.decision && a.decisionAt == b.decisionAt)
    && (a.startedAt.Some? ==> a.startedAt == b.startedAt)
    && (a.terminal.Some? ==> a == b)
  }

  ghost predicate ToolsGrow(a: seq<ToolRecord>, b: seq<ToolRecord>) {
    |a| <= |b| && forall k :: 0 <= k < |a| ==> ToolGrows(a[k], b[k])
  }

  /** A turn keeps its identity; once it is terminal it never changes again. */
  ghost predicate TurnGrows(a: TurnRecord, b: TurnRecord) {
    && a.turnId == b.turnId && a.requestId == b.requestId && a.startedAt == b.startedAt
    && a.retryOf == b.retryOf && a.userMessage == b.userMessage
    && ToolsGrow(a.tools, b.tools)
    && (a.status != Running ==> a == b)
  }

  ghost predicate TurnsGrow(a: seq<TurnRecord>, b: seq<TurnRecord>) {
    |a| <= |b| && forall i :: 0 <= i < |a| ==> TurnGrows(a[i], b[i])
  }

  ghost predicate SessionGrows(a: SessionRecord, b: SessionRecord) {
    && a.sessionId == b.sessionId && a.createdAt == b.createdAt && a.binding == b.binding
    && TurnsGrow(a.turns, b.turns)
  }

  ghost predicate Grows(a: Journal, b: Journal) {
    forall sid :: sid in a.sessions ==> sid in b.sessions && SessionGrows(a.sessions[sid], b.sessions[sid])
  }

  // ---------------------------------------------------------------- one record

  lemma EditTurnGrows(turn: TurnRecord, edit: TurnEdit)
    requires EditTurn(turn, edit).Some?
    ensures TurnGrows(turn, EditTurn(turn, edit).value)
    ensures turn.status == Running
  {
  }

  lemma PutTurnGrows(s: SessionRecord, i: nat, turn: TurnRecord, at: nat)
    requires i < |s.turns| && TurnGrows(s.turns[i], turn)
    ensures SessionGrows(s, PutTurn(s, i, turn, at))
  {
  }

  lemma EditSessionGrows(j: Journal, sid: SessionId, tid: TurnId, edit: TurnEdit, at: nat)
    requires EditSession(j, sid, tid, edit, at).Some?
    ensures Grows(j, EditSession(j, sid, tid, edit, at).value)
  {
    var s := j.sessions[sid];
    var i := TurnIndex(s.turns, tid);
    EditTurnGrows(s.turns[i], edit);
    PutTurnGrows(s, i, EditTurn(s.turns[i], edit).value, at);
  }

  lemma RecordGrows(j: Journal, record: JournalRecord)
    requires ApplyRecord(j, record).Some?
    ensures Grows(j, ApplyRecord(j, record).value)
  {
    hide EditSession;
    match record
    case TurnDelta(sid, tid, delta, at) => EditSessionGrows(j, sid, tid, AppendDelta(delta), at);
    case TurnTerminal(sid, receipt, message, at) =>
      EditSessionGrows(j, sid, receipt.turnId, Finish(receipt, message, at), at);
    case RecoveryApplied(sid, receipt, message, at) =>
      EditSessionGrows(j, sid, receipt.turnId, Finish(receipt, message, at), at);
    case ToolRequested(sid, tid, invocation, at) =>
      EditSessionGrows(j, sid, tid, RequestTool(invocation, at), at);
    case ToolDecided(sid, tid, decision, at) => EditSessionGrows(j, sid, tid, DecideTool(decision, at), at);
    case ToolStarted(sid, tid, callId, at) => EditSessionGrows(j, sid, tid, StartTool(callId, at), at);
    case ToolTerminal(sid, tid, result, at) => EditSessionGrows(j, sid, tid, FinishTool(result, at), at);
    case CompactionStored(_, _, _) =>
    case SessionCreated(_) =>
    case SessionActivated(_, _) =>
    case TurnStarted(_, _, _) =>
    case TraceStored(_, _) =>
  }

  // ---------------------------------------------------------------- whole logs

  lemma ToolsGrowTransitive(a: seq<ToolRecord>, b: seq<ToolRecord>, c: seq<ToolRecord>)
    requires ToolsGrow(a, b) && ToolsGrow(b, c)
    ensures ToolsGrow(a, c)
  {
    forall k | 0 <= k < |a| ensures ToolGrows(a[k], c[k]) {
      assert ToolGrows(a[k], b[k]) && ToolGrows(b[k], c[k]);
    }
  }

  lemma TurnsGrowTransitive(a: seq<TurnRecord>, b: seq<TurnRecord>, c: seq<TurnRecord>)
    requires TurnsGrow(a, b) && TurnsGrow(b, c)
    ensures TurnsGrow(a, c)
  {
    forall i | 0 <= i < |a| ensures TurnGrows(a[i], c[i]) {
      assert TurnGrows(a[i], b[i]) && TurnGrows(b[i], c[i]);
      ToolsGrowTransitive(a[i].tools, b[i].tools, c[i].tools);
    }
  }

  lemma GrowsTransitive(a: Journal, b: Journal, c: Journal)
    requires Grows(a, b) && Grows(b, c)
    ensures Grows(a, c)
  {
    forall sid | sid in a.sessions ensures SessionGrows(a.sessions[sid], c.sessions[sid]) {
      TurnsGrowTransitive(a.sessions[sid].turns, b.sessions[sid].turns, c.sessions[sid].turns);
    }
  }

  /** Whatever the records say, every state of a replay is kept by every later one. */
  lemma {:induction false} ReplayGrows(m: Machine, log: seq<Envelope>)
    requires Replay(m, log).Some?
    ensures Grows(m.journal, Replay(m, log).value.journal)
  {
    hide ApplyRecord, Grows;
    if log == [] {
      GrowsReflexive(m.journal);
    } else {
      ReplayGrows(m, log[..|log| - 1]);
      var mid, last := Replay(m, log[..|log| - 1]).value, log[|log| - 1];
      if last.recordId !in mid.seen {
        RecordGrows(mid.journal, last.record);
        GrowsTransitive(m.journal, mid.journal, Replay(m, log).value.journal);
      }
    }
  }

  lemma GrowsReflexive(j: Journal)
    ensures Grows(j, j)
  {
  }

  /** A terminal turn is the same in every state of every longer log. */
  lemma TerminalTurnIsFrozen(m: Machine, log: seq<Envelope>, sid: SessionId, i: nat)
    requires Replay(m, log).Some? && sid in m.journal.sessions && i < |m.journal.sessions[sid].turns|
    requires m.journal.sessions[sid].turns[i].status != Running
    ensures var later := Replay(m, log).value.journal;
            && sid in later.sessions && i < |later.sessions[sid].turns|
            && later.sessions[sid].turns[i] == m.journal.sessions[sid].turns[i]
  {
    ReplayGrows(m, log);
  }
}
