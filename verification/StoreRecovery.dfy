/** Reopening the store after a crash: whatever was left open is closed, once, durably. */
module StoreRecovery {
  import opened Protocol
  import opened Session
  import opened SessionMachines
  import opened ReplayLaws
  import opened JournalGrowth
  import opened JournalInvariant
  import opened Store

  datatype AbandonedTool = AbandonedTool(sid: SessionId, tid: TurnId, callId: CallId, name: string, started: bool)
  datatype AbandonedTurn = AbandonedTurn(sid: SessionId, tid: TurnId, text: Option<string>)

  /** Record ids for recovery records, derived from what they recover. */
  datatype RecoveryIds = RecoveryIds(
    tool: (SessionId, TurnId, CallId) -> RecordId, turn: (SessionId, TurnId) -> RecordId)

  function OpenTools(sid: SessionId, tid: TurnId, tools: seq<ToolRecord>): seq<AbandonedTool> {
    if tools == [] then []
    else
      (if Closed(tools[0]) then []
       else [AbandonedTool(sid, tid, tools[0].invocation.call.callId, tools[0].invocation.call.name,
                           tools[0].startedAt.Some?)])
      + OpenTools(sid, tid, tools[1..])
  }

  function OpenToolsIn(sid: SessionId, turns: seq<TurnRecord>): seq<AbandonedTool> {
    if turns == [] then [] else OpenTools(sid, turns[0].turnId, turns[0].tools) + OpenToolsIn(sid, turns[1..])
  }

  /** Every open tool, by session, turn and request order. */
  function AbandonedTools(sessions: map<SessionId, SessionRecord>, ids: set<SessionId>): seq<AbandonedTool>
    requires ids <= sessions.Keys
    decreases |ids|
  {
    if ids == {} then [] else
    var sid := Least(ids);
    OpenToolsIn(sessions[sid].sessionId, sessions[sid].turns) + AbandonedTools(sessions, ids - {sid})
  }

  function RunningIn(sid: SessionId, turns: seq<TurnRecord>): seq<AbandonedTurn> {
    if turns == [] then []
    else
      (if turns[0].status != Running then []
       else [AbandonedTurn(sid, turns[0].turnId,
                           if turns[0].assistantMessage.Some?
                           then Some(turns[0].assistantMessage.value.content) else None)])
      + RunningIn(sid, turns[1..])
  }

  function AbandonedTurns(sessions: map<SessionId, SessionRecord>, ids: set<SessionId>): seq<AbandonedTurn>
    requires ids <= sessions.Keys
    decreases |ids|
  {
    if ids == {} then [] else
    var sid := Least(ids);
    RunningIn(sessions[sid].sessionId, sessions[sid].turns) + AbandonedTurns(sessions, ids - {sid})
  }

  function RecoveryResult(a: AbandonedTool): ToolResult {
    ToolResult(a.callId, a.name,
               if a.started then Indeterminate else Cancelled,
               if a.started then "effect_unknown" else "recovered_before_start", None)
  }

  // ---------------------------------------------------------------- what recovery means

  function RecoverTool(t: ToolRecord, now: nat): ToolRecord {
    if Closed(t) then t
    else
      var a := AbandonedTool(0, 0, t.invocation.call.callId, t.invocation.call.name, t.startedAt.Some?);
      t.(terminal := Some(RecoveryResult(a)), terminalAt := Some(now))
  }

  function RecoverTools(tools: seq<ToolRecord>, now: nat): seq<ToolRecord> {
    seq(|tools|, k requires 0 <= k < |tools| => RecoverTool(tools[k], now))
  }

  /** A recovered turn: open tools closed by how far they got, the turn interrupted, its draft kept. */
  function RecoverTurn(sid: SessionId, turn: TurnRecord, now: nat): TurnRecord {
    var receipt := TurnReceipt(sid, turn.turnId, turn.requestId, WasInterrupted, turn.usage);
    turn.(tools := RecoverTools(turn.tools, now), status := TurnInterrupted, completedAt := Some(now),
          assistantMessage := if turn.assistantMessage.Some?
                              then Some(VisibleMessage(Assistant, turn.assistantMessage.value.content, true))
                              else None,
          receipt := Some(receipt))
  }

  /** How recovery closes a call: its effect is unknown if it had started, and it is cancelled if not. */
  ghost predicate RecoveredAs(t: ToolRecord, r: ToolResult) {
    && r.callId == t.invocation.call.callId && r.toolName == t.invocation.call.name && r.output.None?
    && (if t.startedAt.Some? then r.status == Indeterminate && r.code == "effect_unknown"
        else r.status == Cancelled && r.code == "recovered_before_start")
  }

  /** A call as recovery leaves it: one that was closed as it was, one that was open closed as above. */
  ghost predicate ToolRecovered(t: ToolRecord, after: ToolRecord, now: nat) {
    if t.terminal.Some? then after == t
    else
      && after.terminal.Some? && RecoveredAs(t, after.terminal.value)
      && after == t.(terminal := after.terminal, terminalAt := Some(now))
  }

  /** A turn as recovery leaves it: interrupted if it was running, its text kept as unfinished. */
  ghost predicate TurnRecovered(turn: TurnRecord, after: TurnRecord, now: nat) {
    && |after.tools| == |turn.tools|
    && (forall k :: 0 <= k < |turn.tools| ==> ToolRecovered(turn.tools[k], after.tools[k], now))
    && (if turn.status != Running then after == turn
        else
          && after.status == TurnInterrupted && after.completedAt == Some(now)
          && after.receipt.Some? && after.receipt.value.outcome == WasInterrupted
          && after.receipt.value.usage == after.usage == turn.usage
          && (turn.assistantMessage.None? ==> after.assistantMessage.None?)
          && (turn.assistantMessage.Some? ==>
                after.assistantMessage == Some(VisibleMessage(Assistant, turn.assistantMessage.value.content, true))))
  }

  /** Every session as recovery leaves it. */
  ghost predicate AllRecovered(j: Journal, after: Journal, now: nat) {
    && after.sessions.Keys == j.sessions.Keys && after.active == j.active
    && forall sid :: sid in j.sessions ==>
         && |after.sessions[sid].turns| == |j.sessions[sid].turns|
         && forall i :: 0 <= i < |j.sessions[sid].turns| ==>
              TurnRecovered(j.sessions[sid].turns[i], after.sessions[sid].turns[i], now)
  }

  /** The session in which a turn runs, if any. */
  ghost predicate RunsLast(j: Journal, sid: SessionId) {
    && sid in j.sessions && j.sessions[sid].turns != []
    && j.sessions[sid].turns[|j.sessions[sid].turns| - 1].status == Running
  }

  ghost function LastTurn(j: Journal, sid: SessionId): TurnRecord
    requires sid in j.sessions && j.sessions[sid].turns != []
  {
    j.sessions[sid].turns[|j.sessions[sid].turns| - 1]
  }

  ghost function WithLast(j: Journal, sid: SessionId, turn: TurnRecord, at: nat): Journal
    requires sid in j.sessions && j.sessions[sid].turns != []
  {
    j.(sessions := j.sessions[sid := PutTurn(j.sessions[sid], |j.sessions[sid].turns| - 1, turn, at)])
  }

  lemma WithLastTwice(j: Journal, sid: SessionId, a: TurnRecord, at: nat, b: TurnRecord, later: nat)
    requires sid in j.sessions && j.sessions[sid].turns != []
    ensures WithLast(WithLast(j, sid, a, at), sid, b, later) == WithLast(j, sid, b, later)
    ensures LastTurn(WithLast(j, sid, a, at), sid) == a
  {
    var s := j.sessions[sid];
    var i := |s.turns| - 1;
    assert s.turns[i := a][i := b] == s.turns[i := b];
  }

  lemma WithLastSame(j: Journal, sid: SessionId)
    requires sid in j.sessions && j.sessions[sid].turns != []
    ensures WithLast(j, sid, LastTurn(j, sid), j.sessions[sid].updatedAt) == j
  {
    var s := j.sessions[sid];
    assert s.turns[|s.turns| - 1 := LastTurn(j, sid)] == s.turns;
    assert PutTurn(s, |s.turns| - 1, LastTurn(j, sid), s.updatedAt) == s;
  }

  ghost predicate Quiet(j: Journal) {
    forall sid :: sid in j.sessions ==>
      && !Busy(j.sessions[sid])
      && forall i :: 0 <= i < |j.sessions[sid].turns| ==> AllClosed(j.sessions[sid].turns[i].tools)
  }

  // ---------------------------------------------------------------- what is abandoned

  lemma {:induction false} ClosedContributesNothing(sid: SessionId, tid: TurnId, tools: seq<ToolRecord>)
    requires AllClosed(tools)
    ensures OpenTools(sid, tid, tools) == []
  {
    if tools != [] {
      assert Closed(tools[0]);
      ClosedContributesNothing(sid, tid, tools[1..]);
    }
  }

  lemma {:induction false} OnlyLastTurnIsAbandoned(sid: SessionId, turns: seq<TurnRecord>)
    requires forall i :: 0 <= i < |turns| - 1 ==> turns[i].status != Running
    requires forall i :: 0 <= i < |turns| ==> turns[i].status != Running ==> AllClosed(turns[i].tools)
    ensures var last := if turns == [] then [] else turns[|turns| - 1..];
            OpenToolsIn(sid, turns) == OpenToolsIn(sid, last) && RunningIn(sid, turns) == RunningIn(sid, last)
  {
    if |turns| >= 2 {
      ClosedContributesNothing(sid, turns[0].turnId, turns[0].tools);
      OnlyLastTurnIsAbandoned(sid, turns[1..]);
      assert turns[1..][|turns| - 2..] == turns[|turns| - 1..];
    }
  }

  lemma SessionAbandons(j: Journal, sid: SessionId)
    requires JournalOk(j) && sid in j.sessions
    ensures var s := j.sessions[sid];
            if RunsLast(j, sid) then
              var turn := LastTurn(j, sid);
              && OpenToolsIn(sid, s.turns) == OpenTools(sid, turn.turnId, turn.tools)
              && |RunningIn(sid, s.turns)| == 1
              && RunningIn(sid, s.turns)[0].sid == sid
              && RunningIn(sid, s.turns)[0].tid == turn.turnId
              && RunningIn(sid, s.turns)[0].text == (if turn.assistantMessage.Some?
                                                     then Some(turn.assistantMessage.value.content) else None)
            else OpenToolsIn(sid, s.turns) == [] && RunningIn(sid, s.turns) == []
  {
    var turns := j.sessions[sid].turns;
    assert SessionOk(sid, j.sessions[sid]);
    OnlyLastTurnIsAbandoned(sid, turns);
    if turns != [] {
      var last := turns[|turns| - 1..];
      assert last == [LastTurn(j, sid)] && last[1..] == [];
      assert OpenToolsIn(sid, []) == [] && RunningIn(sid, []) == [];
      if !RunsLast(j, sid) {
        ClosedContributesNothing(sid, last[0].turnId, last[0].tools);
      }
    }
  }

  /** Only the one running turn is abandoned. */
  lemma {:induction false} AbandonedIsRunning(j: Journal, ids: set<SessionId>, busy: SessionId)
    requires JournalOk(j) && ids <= j.sessions.Keys
    requires forall sid :: RunsLast(j, sid) ==> sid == busy
    ensures AbandonedTools(j.sessions, ids)
            == if busy in ids && RunsLast(j, busy) then OpenToolsIn(busy, j.sessions[busy].turns) else []
    ensures AbandonedTurns(j.sessions, ids)
            == if busy in ids && RunsLast(j, busy) then RunningIn(busy, j.sessions[busy].turns) else []
    decreases |ids|
  {
    hide JournalOk, RunsLast, OpenToolsIn, RunningIn, OpenTools;
    if ids != {} {
      var sid := Least(ids);
      SessionAbandons(j, sid);
      AbandonedIsRunning(j, ids - {sid}, busy);
      KeyIsId(j, sid);
    }
  }

  lemma KeyIsId(j: Journal, sid: SessionId)
    requires JournalOk(j) && sid in j.sessions
    ensures j.sessions[sid].sessionId == sid
  {
    assert SessionOk(sid, j.sessions[sid]);
  }

  lemma AtMostOneRuns(j: Journal, sid: SessionId)
    requires JournalOk(j) && RunsLast(j, sid)
    ensures forall other :: RunsLast(j, other) ==> other == sid
    ensures forall other :: other in j.sessions && Busy(j.sessions[other]) ==> other == sid
  {
    assert Runs(j, sid);
    forall other | RunsLast(j, other) ensures other == sid {
      assert Runs(j, other);
    }
    forall other | other in j.sessions && Busy(j.sessions[other]) ensures other == sid {
      assert Runs(j, other);
    }
  }

  lemma BusyRunsLast(j: Journal, sid: SessionId)
    requires JournalOk(j) && sid in j.sessions && Busy(j.sessions[sid])
    ensures RunsLast(j, sid)
  {
    assert SessionOk(sid, j.sessions[sid]);
  }

  /** With no running turn, a well-formed journal is quiet. */
  lemma NothingRunsIsQuiet(j: Journal)
    requires JournalOk(j) && forall sid :: !RunsLast(j, sid)
    ensures Quiet(j)
  {
    forall sid | sid in j.sessions
      ensures !Busy(j.sessions[sid])
      ensures forall i :: 0 <= i < |j.sessions[sid].turns| ==> AllClosed(j.sessions[sid].turns[i].tools)
    {
      if Busy(j.sessions[sid]) {
        BusyRunsLast(j, sid);
      }
      assert SessionOk(sid, j.sessions[sid]);
    }
  }

  // ---------------------------------------------------------------- recovering

  /** A record that recovery writes, under the id derived from what it closes. */
  ghost predicate Recovers(ids: RecoveryIds, env: Envelope) {
    match env.record
    case ToolTerminal(sid, tid, result, _) => env.recordId == ids.tool(sid, tid, result.callId)
    case RecoveryApplied(sid, receipt, _, _) => env.recordId == ids.turn(sid, receipt.turnId)
    case _ => false
  }

  ghost predicate AllRecover(ids: RecoveryIds, records: seq<Envelope>) {
    forall i :: 0 <= i < |records| ==> Recovers(ids, records[i])
  }

  ghost predicate FreshFor(ids: RecoveryIds, seen: map<RecordId, Envelope>, sid: SessionId, turn: TurnRecord) {
    && ids.turn(sid, turn.turnId) !in seen
    && (forall k :: 0 <= k < |turn.tools| && !Closed(turn.tools[k]) ==>
          var id := ids.tool(sid, turn.turnId, turn.tools[k].invocation.call.callId);
          id !in seen && id != ids.turn(sid, turn.turnId))
    && (forall k, l :: 0 <= k < l < |turn.tools| && !Closed(turn.tools[k]) && !Closed(turn.tools[l]) ==>
          ids.tool(sid, turn.turnId, turn.tools[k].invocation.call.callId)
          != ids.tool(sid, turn.turnId, turn.tools[l].invocation.call.callId))
  }

  /** Recovery writes results under the tools' own names, which the journal does not check on request. */
  ghost predicate OpenNamesValid(tools: seq<ToolRecord>) {
    forall k :: 0 <= k < |tools| && !Closed(tools[k]) ==> ValidCode(tools[k].invocation.call.name)
  }

  function ToolRecovery(ids: RecoveryIds, a: AbandonedTool, now: nat): Envelope {
    Envelope(ids.tool(a.sid, a.tid, a.callId), ToolTerminal(a.sid, a.tid, RecoveryResult(a), now))
  }

  function ToolRecoveries(ids: RecoveryIds, left: seq<AbandonedTool>, now: nat): seq<Envelope> {
    seq(|left|, k requires 0 <= k < |left| => ToolRecovery(ids, left[k], now))
  }

  /** The record that ends an abandoned turn carries the whole draft. */
  function TurnRecovery(ids: RecoveryIds, sid: SessionId, turn: TurnRecord, now: nat): Envelope {
    var text := if turn.assistantMessage.Some? then Some(turn.assistantMessage.value.content) else None;
    Envelope(ids.turn(sid, turn.turnId),
             RecoveryApplied(sid, TurnReceipt(sid, turn.turnId, turn.requestId, WasInterrupted, turn.usage),
                             PartialMessage(text), now))
  }

  /** Everything recovery writes for the turn that was running. */
  function RecoveryRecords(ids: RecoveryIds, sid: SessionId, turn: TurnRecord, now: nat): seq<Envelope> {
    ToolRecoveries(ids, OpenTools(sid, turn.turnId, turn.tools), now) + [TurnRecovery(ids, sid, turn, now)]
  }

  /** What was left running can be closed: its open tools bear names that results may carry, and each
      recovery record fits a line of the journal. */
  ghost predicate CanRecover(size: Sizes, ids: RecoveryIds, j: Journal, now: nat) {
    forall sid :: RunsLast(j, sid) ==>
      && OpenNamesValid(LastTurn(j, sid).tools)
      && LogFits(size, RecoveryRecords(ids, sid, LastTurn(j, sid), now))
  }

  lemma RunningIsFound(j: Journal, sid: SessionId)
    requires JournalOk(j) && RunsLast(j, sid)
    ensures var tid := LastTurn(j, sid).turnId;
            && RunningSession(j, tid) == Some(sid)
            && TurnIndex(j.sessions[sid].turns, tid) == |j.sessions[sid].turns| - 1
            && j.sessions[sid].sessionId == sid
  {
    AtMostOneRuns(j, sid);
    var s := j.sessions[sid];
    assert SessionOk(sid, s);
    var tid := LastTurn(j, sid).turnId;
    assert RunsTurn(s, tid);
    forall other | other in j.sessions && RunsTurn(j.sessions[other], tid) ensures other == sid {
      assert Busy(j.sessions[other]);
    }
  }

  lemma RecoveryCodesValid()
    ensures ValidCode("effect_unknown") && ValidCode("recovered_before_start")
  {
  }

  lemma ToolIsFound(sid: SessionId, turn: TurnRecord, k: nat)
    requires TurnOk(sid, turn) && k < |turn.tools|
    ensures ToolIndex(turn.tools, turn.tools[k].invocation.call.callId) == k
  {
  }

  /** Editing the running turn edits the last turn of its session. */
  lemma EditLast(j: Journal, sid: SessionId, edit: TurnEdit, at: nat)
    requires JournalOk(j) && RunsLast(j, sid)
    ensures EditSession(j, sid, LastTurn(j, sid).turnId, edit, at)
            == (var t := EditTurn(LastTurn(j, sid), edit);
                if t.None? then None else Some(WithLast(j, sid, t.value, at)))
  {
    hide JournalOk, EditTurn;
    RunningIsFound(j, sid);
  }

  ghost function Abandoned(sid: SessionId, turn: TurnRecord, k: nat): AbandonedTool
    requires k < |turn.tools|
  {
    var t := turn.tools[k];
    AbandonedTool(sid, turn.turnId, t.invocation.call.callId, t.invocation.call.name, t.startedAt.Some?)
  }

  lemma FinishAbandoned(j: Journal, sid: SessionId, k: nat, now: nat)
    requires JournalOk(j) && RunsLast(j, sid)
    requires k < |LastTurn(j, sid).tools| && !Closed(LastTurn(j, sid).tools[k])
    ensures var turn := LastTurn(j, sid);
            var t := turn.tools[k];
            ApplyRecord(j, ToolTerminal(sid, turn.turnId, RecoveryResult(Abandoned(sid, turn, k)), now))
            == if ValidCode(t.invocation.call.name)
               then Some(WithLast(j, sid, turn.(tools := turn.tools[k := RecoverTool(t, now)]), now))
               else None
  {
    hide JournalOk;
    RecoveryCodesValid();
    LastTurnOk(j, sid);
    ToolIsFound(sid, LastTurn(j, sid), k);
    hide TurnOk, ToolIndex;
    var turn := LastTurn(j, sid);
    EditLast(j, sid, FinishTool(RecoveryResult(Abandoned(sid, turn, k)), now), now);
    hide EditSession;
  }

  /** One recovery command closes its tool, or is refused when the tool's name is not a valid one. */
  lemma RecoverToolStep(m: Machine, sid: SessionId, k: nat, rid: RecordId, now: nat)
    requires JournalOk(m.journal) && RunsLast(m.journal, sid) && rid !in m.seen
    requires k < |LastTurn(m.journal, sid).tools| && !Closed(LastTurn(m.journal, sid).tools[k])
    ensures var turn := LastTurn(m.journal, sid);
            var a := Abandoned(sid, turn, k);
            var env := Envelope(rid, ToolTerminal(sid, turn.turnId, RecoveryResult(a), now));
            JournalCommand(m, Report(rid, turn.turnId, Terminal(RecoveryResult(a)), now))
            == if ApplyRecord(m.journal, env.record).Some? then
                 (Machine(ApplyRecord(m.journal, env.record).value, m.seen[rid := env]), Ok([Effect.Persist(env)]))
               else (m, Err(Recovery))
  {
    hide JournalOk, ApplyRecord;
    RunningIsFound(m.journal, sid);
    var turn := LastTurn(m.journal, sid);
    var env := Envelope(rid, ToolTerminal(sid, turn.turnId, RecoveryResult(Abandoned(sid, turn, k)), now));
    assert [Effect.Persist(env)] + [] == [Effect.Persist(env)];
  }

  lemma LastTurnOk(j: Journal, sid: SessionId)
    requires JournalOk(j) && RunsLast(j, sid)
    ensures TurnOk(sid, LastTurn(j, sid))
  {
    assert SessionOk(sid, j.sessions[sid]);
  }

  lemma ExtendLive(log: seq<Envelope>, m: Machine, env: Envelope)
    requires LiveLog(log) && Replay(EMPTY, log) == Some(m)
    requires env.recordId !in m.seen && Live(m.journal, env.record) && ApplyRecord(m.journal, env.record).Some?
    ensures LiveLog(log + [env]) && Replay(EMPTY, log + [env]) == ReplayOne(m, env)
    ensures JournalOk(ApplyRecord(m.journal, env.record).value)
  {
    assert (log + [env])[..|log|] == log;
    LiveLogOk(log + [env]);
  }

  /** How far tool recovery has got: the first `k` tools of the running turn are closed,
      and `left` lists the open ones among the rest. */
  ghost predicate ToolsRecovered(m: Machine, first: Journal, sid: SessionId, turn: TurnRecord, k: nat, now: nat,
                                 left: seq<AbandonedTool>, ids: RecoveryIds)
  {
    && k <= |turn.tools|
    && JournalOk(m.journal) && RunsLast(m.journal, sid) && RunsLast(first, sid) && turn == LastTurn(first, sid)
    && m.journal == WithLast(first, sid, LastTurn(m.journal, sid), m.journal.sessions[sid].updatedAt)
    && LastTurn(m.journal, sid) == turn.(tools := RecoverTools(turn.tools[..k], now) + turn.tools[k..])
    && left == OpenTools(sid, turn.turnId, turn.tools[k..])
    && FreshFor(ids, m.seen, sid, LastTurn(m.journal, sid))
    && OpenNamesValid(turn.tools[..k])
  }

  /** A closed tool is passed over. */
  lemma SkipClosed(m: Machine, first: Journal, sid: SessionId, turn: TurnRecord, k: nat, now: nat,
                   left: seq<AbandonedTool>, ids: RecoveryIds)
    requires ToolsRecovered(m, first, sid, turn, k, now, left, ids) && k < |turn.tools| && Closed(turn.tools[k])
    ensures ToolsRecovered(m, first, sid, turn, k + 1, now, left, ids)
  {
    hide JournalOk, FreshFor;
    assert turn.tools[k..][1..] == turn.tools[k + 1..];
    assert RecoverTools(turn.tools[..k], now) + turn.tools[k..]
        == RecoverTools(turn.tools[..k + 1], now) + turn.tools[k + 1..];
  }

  lemma NextListed(m: Machine, first: Journal, sid: SessionId, turn: TurnRecord, k: nat, now: nat,
                   left: seq<AbandonedTool>, ids: RecoveryIds)
    requires ToolsRecovered(m, first, sid, turn, k, now, left, ids) && k < |turn.tools| && !Closed(turn.tools[k])
    ensures LastTurn(m.journal, sid).tools[k] == turn.tools[k]
    ensures left == [Abandoned(sid, turn, k)] + OpenTools(sid, turn.turnId, turn.tools[k + 1..])
    ensures ids.tool(sid, turn.turnId, turn.tools[k].invocation.call.callId) !in m.seen
  {
    hide JournalOk;
    assert turn.tools[k..][1..] == turn.tools[k + 1..];
  }

  lemma RecoveredIsClosed(t: ToolRecord, now: nat)
    ensures Closed(RecoverTool(t, now))
  {
  }

  lemma OneMoreName(tools: seq<ToolRecord>, k: nat)
    requires k < |tools| && OpenNamesValid(tools[..k])
    ensures Closed(tools[k]) || ValidCode(tools[k].invocation.call.name) ==> OpenNamesValid(tools[..k + 1])
  {
    assert forall i :: 0 <= i < k ==> tools[..k + 1][i] == tools[..k][i];
  }

  /** Using up one tool's record id leaves the others fresh. */
  lemma StillFresh(ids: RecoveryIds, seen: map<RecordId, Envelope>, seen': map<RecordId, Envelope>, sid: SessionId,
                   turn: TurnRecord, k: nat, tool: ToolRecord)
    requires FreshFor(ids, seen, sid, turn) && k < |turn.tools| && !Closed(turn.tools[k]) && Closed(tool)
    requires seen'.Keys == seen.Keys + {ids.tool(sid, turn.turnId, turn.tools[k].invocation.call.callId)}
    ensures FreshFor(ids, seen', sid, turn.(tools := turn.tools[k := tool]))
  {
    var tools := turn.tools[k := tool];
    assert forall i :: 0 <= i < |tools| && i != k ==> tools[i] == turn.tools[i];
  }

  lemma ClosedOne(m: Machine, m': Machine, first: Journal, sid: SessionId, turn: TurnRecord, k: nat, now: nat,
                  left: seq<AbandonedTool>, ids: RecoveryIds)
    requires ToolsRecovered(m, first, sid, turn, k, now, left, ids) && k < |turn.tools| && !Closed(turn.tools[k])
    requires ValidCode(turn.tools[k].invocation.call.name) && JournalOk(m'.journal)
    requires var last := LastTurn(m.journal, sid);
             m'.journal
             == WithLast(m.journal, sid, last.(tools := last.tools[k := RecoverTool(turn.tools[k], now)]), now)
    requires m'.seen.Keys == m.seen.Keys + {ids.tool(sid, turn.turnId, turn.tools[k].invocation.call.callId)}
    ensures ToolsRecovered(m', first, sid, turn, k + 1, now, left[1..], ids)
  {
    hide JournalOk, FreshFor, RecoverTool, OpenTools, OpenNamesValid;
    NextListed(m, first, sid, turn, k, now, left, ids);
    var last := LastTurn(m.journal, sid);
    var tool := RecoverTool(turn.tools[k], now);
    RecoveredIsClosed(turn.tools[k], now);
    StillFresh(ids, m.seen, m'.seen, sid, last, k, tool);
    OneMoreName(turn.tools, k);
    assert last.tools[k := tool] == RecoverTools(turn.tools[..k + 1], now) + turn.tools[k + 1..];
    WithLastTwice(first, sid, last, m.journal.sessions[sid].updatedAt, last.(tools := last.tools[k := tool]), now);
    assert turn.tools[..k + 1] == turn.tools[..k] + [turn.tools[k]];
  }

  /** An open tool is the next one listed, and closing it takes recovery one tool further. */
  lemma CloseOne(m: Machine, first: Journal, sid: SessionId, turn: TurnRecord, k: nat, now: nat,
                 left: seq<AbandonedTool>, ids: RecoveryIds)
    requires ToolsRecovered(m, first, sid, turn, k, now, left, ids) && k < |turn.tools| && !Closed(turn.tools[k])
    ensures left != []
    ensures var a := left[0];
            var rid := ids.tool(a.sid, a.tid, a.callId);
            var record := ToolTerminal(sid, turn.turnId, RecoveryResult(a), now);
            var (m', reply) := JournalCommand(m, Report(rid, a.tid, Terminal(RecoveryResult(a)), now));
            && rid !in m.seen && Recovers(ids, Envelope(rid, record))
            && Envelope(rid, record) == ToolRecovery(ids, a, now)
            && (reply.Ok? <==> ValidCode(turn.tools[k].invocation.call.name))
            && (reply.Ok? ==>
                  && reply.value == [Effect.Persist(Envelope(rid, record))]
                  && ApplyRecord(m.journal, record) == Some(m'.journal)
                  && m'.seen == m.seen[rid := Envelope(rid, record)]
                  && ToolsRecovered(m', first, sid, turn, k + 1, now, left[1..], ids))
  {
    hide JournalOk, ApplyRecord, JournalCommand, FreshFor;
    NextListed(m, first, sid, turn, k, now, left, ids);
    var a := left[0];
    var rid := ids.tool(sid, turn.turnId, a.callId);
    var record := ToolTerminal(sid, turn.turnId, RecoveryResult(a), now);
    FinishAbandoned(m.journal, sid, k, now);
    RecoverToolStep(m, sid, k, rid, now);
    var (m', reply) := JournalCommand(m, Report(rid, a.tid, Terminal(RecoveryResult(a)), now));
    if reply.Ok? {
      assert Live(m.journal, record);
      RecordKeepsOk(m.journal, record);
      ClosedOne(m, m', first, sid, turn, k, now, left, ids);
    }
  }

  lemma {:induction false} SkipToOpen(m: Machine, first: Journal, sid: SessionId, turn: TurnRecord, k: nat, now: nat,
                                      left: seq<AbandonedTool>, ids: RecoveryIds) returns (open: nat)
    requires ToolsRecovered(m, first, sid, turn, k, now, left, ids)
    ensures ToolsRecovered(m, first, sid, turn, open, now, left, ids)
    ensures if left == [] then open == |turn.tools| else open < |turn.tools| && !Closed(turn.tools[open])
    decreases |turn.tools| - k
  {
    open := k;
    if k < |turn.tools| {
      if Closed(turn.tools[k]) {
        SkipClosed(m, first, sid, turn, k, now, left, ids);
        open := SkipToOpen(m, first, sid, turn, k + 1, now, left, ids);
      } else {
        NextListed(m, first, sid, turn, k, now, left, ids);
      }
    }
  }

  lemma StartRecovery(m: Machine, sid: SessionId, now: nat, ids: RecoveryIds)
    requires JournalOk(m.journal) && RunsLast(m.journal, sid)
    requires FreshFor(ids, m.seen, sid, LastTurn(m.journal, sid))
    ensures ToolsRecovered(m, m.journal, sid, LastTurn(m.journal, sid), 0, now,
                           AbandonedTools(m.journal.sessions, m.journal.sessions.Keys), ids)
  {
    hide JournalOk, FreshFor;
    AtMostOneRuns(m.journal, sid);
    AbandonedIsRunning(m.journal, m.journal.sessions.Keys, sid);
    SessionAbandons(m.journal, sid);
    hide AbandonedTools;
    var turn := LastTurn(m.journal, sid);
    WithLastSame(m.journal, sid);
    assert turn.tools[0..] == turn.tools && turn.tools[..0] == [];
    assert RecoverTools([], now) + turn.tools == turn.tools;
  }

  ghost predicate NothingRuns(j: Journal) { forall sid :: !RunsLast(j, sid) }

  /** Closes every open tool of the running turn with one command each. */
  method RecoverInvocations(machine: SessionMachine, ids: RecoveryIds, now: nat, ghost log: seq<Envelope>)
    returns (r: Option<seq<Envelope>>)
    requires LiveLog(log) && Replay(EMPTY, log) == Some(machine.View())
    requires forall sid :: RunsLast(machine.Project(), sid) ==>
                             FreshFor(ids, machine.seenRecords, sid, LastTurn(machine.Project(), sid))
    modifies machine
    ensures r.Some? ==> LiveLog(log + r.value) && Replay(EMPTY, log + r.value) == Some(machine.View())
    ensures r.Some? ==> AllRecover(ids, r.value)
    ensures forall sid :: RunsLast(old(machine.Project()), sid) ==>
              var turn := LastTurn(old(machine.Project()), sid);
              r.Some? ==> r.value == ToolRecoveries(ids, OpenTools(sid, turn.turnId, turn.tools), now)
    ensures NothingRuns(old(machine.Project())) ==> r == Some([]) && machine.View() == old(machine.View())
    ensures forall sid :: RunsLast(old(machine.Project()), sid) ==>
              var turn := LastTurn(old(machine.Project()), sid);
              && (r.Some? <==> OpenNamesValid(turn.tools))
              && (r.Some? ==>
                    ToolsRecovered(machine.View(), old(machine.Project()), sid, turn, |turn.tools|, now, [], ids))
  {
    hide FreshFor, ToolsRecovered, JournalOk, LiveLog, Replay, AbandonedTools, Step, JournalCommand, RunsLast, Recovers;
    LiveLogOk(log);
    ghost var first := machine.Project();
    ghost var runs := !NothingRuns(first);
    ghost var sid, turn, k := 0, NewTurn(0, 0, 0, None, ""), 0;
    var left := AbandonedTools(machine.sessions, machine.sessions.Keys);
    if runs {
      sid :| RunsLast(first, sid);
      AtMostOneRuns(first, sid);
      turn := RunningTurn(first, sid);
      StartRecovery(machine.View(), sid, now, ids);
    } else {
      AbandonedIsRunning(first, machine.sessions.Keys, 0);
    }
    var records: seq<Envelope> := [];
    assert log + records == log;
    ghost var all := left;
    if runs {
      AllListed(machine.View(), sid, turn, now, left, ids);
    }
    while left != []
      invariant AllRecover(ids, records)
      invariant records + ToolRecoveries(ids, left, now) == ToolRecoveries(ids, all, now)
      invariant LiveLog(log + records) && Replay(EMPTY, log + records) == Some(machine.View())
      invariant if runs then ToolsRecovered(machine.View(), first, sid, turn, k, now, left, ids)
                else left == [] && records == [] && machine.View() == old(machine.View())
      decreases |left|
    {
      ghost var before := machine.View();
      k := SkipToOpen(before, first, sid, turn, k, now, left, ids);
      CloseOne(before, first, sid, turn, k, now, left, ids);
      var a := left[0];
      var command := Report(ids.tool(a.sid, a.tid, a.callId), a.tid, Terminal(RecoveryResult(a)), now);
      StepJournals(before, command);
      var reply := machine.Execute(command);
      if reply.Err? {
        NameIsInvalid(turn.tools, k);
        return None;
      }
      ExtendLive(log + records, before, reply.value[0].envelope);
      assert log + (records + [reply.value[0].envelope]) == (log + records) + [reply.value[0].envelope];
      RecoverNext(ids, left, now);
      records := records + [reply.value[0].envelope];
      left, k := left[1..], k + 1;
    }
    if runs {
      k := SkipToOpen(machine.View(), first, sid, turn, k, now, left, ids);
      AllNamesValid(machine.View(), first, sid, turn, now, ids);
    }
    return Some(records);
  }

  ghost function RunningTurn(j: Journal, sid: SessionId): TurnRecord
    requires RunsLast(j, sid)
  {
    LastTurn(j, sid)
  }

  lemma RecoverNext(ids: RecoveryIds, left: seq<AbandonedTool>, now: nat)
    requires left != []
    ensures ToolRecoveries(ids, left, now) == [ToolRecovery(ids, left[0], now)] + ToolRecoveries(ids, left[1..], now)
  {
  }

  lemma AllListed(m: Machine, sid: SessionId, turn: TurnRecord, now: nat, left: seq<AbandonedTool>, ids: RecoveryIds)
    requires ToolsRecovered(m, m.journal, sid, turn, 0, now, left, ids)
    ensures turn == LastTurn(m.journal, sid) && left == OpenTools(sid, turn.turnId, turn.tools)
  {
    assert turn.tools[0..] == turn.tools;
  }

  lemma NameIsInvalid(tools: seq<ToolRecord>, k: nat)
    requires k < |tools| && !Closed(tools[k]) && !ValidCode(tools[k].invocation.call.name)
    ensures !OpenNamesValid(tools)
  {
  }

  lemma AllNamesValid(m: Machine, first: Journal, sid: SessionId, turn: TurnRecord, now: nat, ids: RecoveryIds)
    requires ToolsRecovered(m, first, sid, turn, |turn.tools|, now, [], ids)
    ensures OpenNamesValid(turn.tools)
  {
    assert turn.tools[..|turn.tools|] == turn.tools;
  }

  lemma StepJournals(m: Machine, c: Command)
    requires Journals(c)
    ensures Step(m, c) == JournalCommand(m, c)
  {
  }

  /** The recovery command of a running turn whose tools are closed ends it as interrupted. */
  lemma RecoverTurnStep(m: Machine, sid: SessionId, rid: RecordId, now: nat)
    requires JournalOk(m.journal) && RunsLast(m.journal, sid) && rid !in m.seen
    requires AllClosed(LastTurn(m.journal, sid).tools)
    ensures var turn := LastTurn(m.journal, sid);
            var text := if turn.assistantMessage.Some? then Some(turn.assistantMessage.value.content) else None;
            var receipt := TurnReceipt(sid, turn.turnId, turn.requestId, WasInterrupted, turn.usage);
            var record := RecoveryApplied(sid, receipt, PartialMessage(text), now);
            var env := Envelope(rid, record);
            var j' := WithLast(m.journal, sid, RecoverTurn(sid, turn, now), now);
            && ApplyRecord(m.journal, record) == Some(j')
            && JournalCommand(m, Recover(rid, turn.turnId, text, now))
               == (Machine(j', m.seen[rid := env]), Ok([Effect.Persist(env), Finalized(receipt)]))
  {
    hide JournalOk;
    RunningIsFound(m.journal, sid);
    var turn := LastTurn(m.journal, sid);
    var text := if turn.assistantMessage.Some? then Some(turn.assistantMessage.value.content) else None;
    var receipt := TurnReceipt(sid, turn.turnId, turn.requestId, WasInterrupted, turn.usage);
    EditLast(m.journal, sid, Finish(receipt, PartialMessage(text), now), now);
    hide EditSession;
    assert RecoverTools(turn.tools, now) == turn.tools;
    var env := Envelope(rid, RecoveryApplied(sid, receipt, PartialMessage(text), now));
    assert [Effect.Persist(env)] + [Finalized(receipt)] == [Effect.Persist(env), Finalized(receipt)];
  }

  lemma EndedIsQuiet(j: Journal, sid: SessionId, now: nat)
    requires JournalOk(j) && RunsLast(j, sid)
    requires JournalOk(WithLast(j, sid, RecoverTurn(sid, LastTurn(j, sid), now), now))
    ensures Quiet(WithLast(j, sid, RecoverTurn(sid, LastTurn(j, sid), now), now))
  {
    hide JournalOk;
    AtMostOneRuns(j, sid);
    NothingRunsIsQuiet(WithLast(j, sid, RecoverTurn(sid, LastTurn(j, sid), now), now));
  }

  /** The turn left running, and nothing else, is listed for recovery. */
  ghost predicate ListsRunning(left: seq<AbandonedTurn>, j: Journal) {
    if NothingRuns(j) then left == []
    else
      && |left| == 1 && RunsLast(j, left[0].sid)
      && var turn := LastTurn(j, left[0].sid);
      left[0] == AbandonedTurn(left[0].sid, turn.turnId,
                               if turn.assistantMessage.Some? then Some(turn.assistantMessage.value.content) else None)
  }

  lemma RunningIsListed(j: Journal)
    requires JournalOk(j)
    ensures ListsRunning(AbandonedTurns(j.sessions, j.sessions.Keys), j)
  {
    hide JournalOk, AbandonedTurns, RunningIn;
    if NothingRuns(j) {
      AbandonedIsRunning(j, j.sessions.Keys, 0);
    } else {
      var sid :| RunsLast(j, sid);
      AtMostOneRuns(j, sid);
      AbandonedIsRunning(j, j.sessions.Keys, sid);
      SessionAbandons(j, sid);
    }
  }

  /** Ends one running turn as interrupted. */
  method RecoverOneTurn(machine: SessionMachine, a: AbandonedTurn, ids: RecoveryIds, now: nat, ghost log: seq<Envelope>)
    returns (env: Envelope)
    requires LiveLog(log) && Replay(EMPTY, log) == Some(machine.View())
    requires RunsLast(machine.Project(), a.sid)
    requires var turn := LastTurn(machine.Project(), a.sid);
             && a == AbandonedTurn(a.sid, turn.turnId, if turn.assistantMessage.Some?
                                                       then Some(turn.assistantMessage.value.content) else None)
             && AllClosed(turn.tools) && ids.turn(a.sid, turn.turnId) !in machine.seenRecords
    modifies machine
    ensures LiveLog(log + [env]) && Replay(EMPTY, log + [env]) == Some(machine.View())
    ensures Recovers(ids, env) && env == TurnRecovery(ids, a.sid, LastTurn(old(machine.Project()), a.sid), now)
    ensures Quiet(machine.Project())
    ensures var j := old(machine.Project());
            machine.Project() == WithLast(j, a.sid, RecoverTurn(a.sid, LastTurn(j, a.sid), now), now)
  {
    hide JournalOk, LiveLog, Replay, Step, JournalCommand, Quiet, ApplyRecord, RecoverTurn, WithLast;
    LiveLogOk(log);
    ghost var before := machine.View();
    var command := Recover(ids.turn(a.sid, a.tid), a.tid, a.text, now);
    RecoverTurnStep(before, a.sid, ids.turn(a.sid, a.tid), now);
    StepJournals(before, command);
    var reply := machine.Execute(command);
    env := reply.value[0].envelope;
    ExtendLive(log, before, env);
    EndedIsQuiet(before.journal, a.sid, now);
  }

  /** Ends the running turn, whose tools are closed by now. */
  method RecoverTurns(machine: SessionMachine, ids: RecoveryIds, now: nat, ghost log: seq<Envelope>)
    returns (r: Option<seq<Envelope>>)
    requires LiveLog(log) && Replay(EMPTY, log) == Some(machine.View())
    requires forall sid :: RunsLast(machine.Project(), sid) ==>
               var turn := LastTurn(machine.Project(), sid);
               AllClosed(turn.tools) && ids.turn(sid, turn.turnId) !in machine.seenRecords
    modifies machine
    ensures r.Some? && LiveLog(log + r.value) && Replay(EMPTY, log + r.value) == Some(machine.View())
    ensures AllRecover(ids, r.value)
    ensures forall sid :: RunsLast(old(machine.Project()), sid) ==>
              r.value == [TurnRecovery(ids, sid, LastTurn(old(machine.Project()), sid), now)]
    ensures Quiet(machine.Project())
    ensures NothingRuns(old(machine.Project())) ==> r == Some([]) && machine.View() == old(machine.View())
    ensures var j := old(machine.Project());
            forall sid :: RunsLast(j, sid) ==>
              machine.Project() == WithLast(j, sid, RecoverTurn(sid, LastTurn(j, sid), now), now)
  {
    hide JournalOk, LiveLog, Replay, AbandonedTurns, Quiet, RecoverTurn, WithLast, Recovers;
    LiveLogOk(log);
    ghost var first := machine.Project();
    var left := AbandonedTurns(machine.sessions, machine.sessions.Keys);
    RunningIsListed(first);
    if NothingRuns(first) {
      NothingRunsIsQuiet(first);
    } else {
      AtMostOneRuns(first, left[0].sid);
    }
    var records: seq<Envelope> := [];
    assert log + records == log;
    for i := 0 to |left|
      invariant AllRecover(ids, records)
      invariant i == 0 ==> records == [] && machine.View() == old(machine.View())
      invariant LiveLog(log + records) && Replay(EMPTY, log + records) == Some(machine.View())
      invariant i == 1 ==> Quiet(machine.Project())
      invariant i == 1 ==> records == [TurnRecovery(ids, left[0].sid, LastTurn(first, left[0].sid), now)]
      invariant i == 1 ==>
                  machine.Project() == WithLast(first, left[0].sid,
                                                RecoverTurn(left[0].sid, LastTurn(first, left[0].sid), now), now)
    {
      var env := RecoverOneTurn(machine, left[i], ids, now, log);
      records := records + [env];
      assert records == [env];
    }
    return Some(records);
  }

  /** Appends records until one does not fit. */
  method AppendAll(log: seq<Envelope>, records: seq<Envelope>, size: Sizes) returns (ok: bool, left: seq<Envelope>)
    ensures ok <==> LogFits(size, records)
    ensures exists n: nat :: n <= |records| && left == log + records[..n] && LogFits(size, records[..n])
                             && (ok <==> n == |records|)
  {
    left := log;
    assert log + records[..0] == log;
    for i := 0 to |records|
      invariant left == log + records[..i] && LogFits(size, records[..i])
    {
      if !Fits(size, records[i]) {
        return false, left;
      }
      assert log + records[..i + 1] == left + [records[i]];
      left := left + [records[i]];
    }
    assert records[..|records|] == records;
    ok := true;
  }

  /** What recovery would write on this journal. */
  ghost predicate RecoveryOf(ids: RecoveryIds, j: Journal, now: nat, records: seq<Envelope>) {
    && (NothingRuns(j) ==> records == [])
    && (forall sid :: RunsLast(j, sid) ==> records == RecoveryRecords(ids, sid, LastTurn(j, sid), now))
  }

  /** Some first part of that. */
  ghost predicate RecoveryBegun(ids: RecoveryIds, j: Journal, now: nat, records: seq<Envelope>) {
    && (NothingRuns(j) ==> records == [])
    && (forall sid :: RunsLast(j, sid) ==> records <= RecoveryRecords(ids, sid, LastTurn(j, sid), now))
  }

  lemma BeginsRecovery(ids: RecoveryIds, j: Journal, now: nat, records: seq<Envelope>, n: nat)
    requires RecoveryOf(ids, j, now, records) && n <= |records|
    ensures RecoveryBegun(ids, j, now, records[..n])
  {
  }

  /** Replays the log and closes what it left open, in memory; fails exactly on an invalid name. */
  method RecoverAll(log: seq<Envelope>, ids: RecoveryIds, now: nat)
    returns (r: Option<(SessionMachine, seq<Envelope>)>)
    requires LiveLog(log)
    requires Replay(EMPTY, log).Some? ==>
               var m := Replay(EMPTY, log).value;
               forall sid :: RunsLast(m.journal, sid) ==> FreshFor(ids, m.seen, sid, LastTurn(m.journal, sid))
    ensures Replay(EMPTY, log).Some?
    ensures var j := Replay(EMPTY, log).value.journal;
            && (r.Some? <==> forall sid :: RunsLast(j, sid) ==> OpenNamesValid(LastTurn(j, sid).tools))
            && (r.Some? ==>
                  var (machine, records) := r.value;
                  && fresh(machine) && LiveLog(log + records)
                  && Replay(EMPTY, log + records) == Some(machine.View())
                  && Quiet(machine.Project()) && AllRecover(ids, records) && RecoveryOf(ids, j, now, records)
                  && (NothingRuns(j) ==> machine.Project() == j)
                  && (forall sid :: RunsLast(j, sid) ==>
                        machine.Project() == WithLast(j, sid, RecoverTurn(sid, LastTurn(j, sid), now), now)))
  {
    hide JournalOk, LiveLog, Replay, Quiet, FreshFor, OpenNamesValid, Recovers, ToolRecoveries, TurnRecovery;
    LiveLogOk(log);
    var replayed := SessionMachine.FromLog(log);
    var machine := replayed.value;
    ghost var first := machine.Project();
    var tools := RecoverInvocations(machine, ids, now, log);
    if tools.None? {
      return None;
    }
    ghost var middle := machine.Project();
    forall sid | RunsLast(middle, sid)
      ensures RunsLast(first, sid)
      ensures var turn := LastTurn(middle, sid);
              && AllClosed(turn.tools) && ids.turn(sid, turn.turnId) !in machine.seenRecords
              && TurnRecovery(ids, sid, turn, now) == TurnRecovery(ids, sid, LastTurn(first, sid), now)
              && WithLast(middle, sid, RecoverTurn(sid, turn, now), now)
                 == WithLast(first, sid, RecoverTurn(sid, LastTurn(first, sid), now), now)
    {
      if !NothingRuns(first) {
        var busy :| RunsLast(first, busy);
        RecoveredMiddle(machine.View(), first, busy, sid, now, ids);
      }
    }
    ghost var running := !NothingRuns(first);
    if running {
      ghost var busy :| RunsLast(first, busy);
      assert RunsLast(middle, busy);
    }
    var turns := RecoverTurns(machine, ids, now, log + tools.value);
    var records := tools.value + turns.value;
    assert log + tools.value + turns.value == log + records;
    OnlyOneRecovery(ids, first, now, records);
    return Some((machine, records));
  }

  lemma OnlyOneRecovery(ids: RecoveryIds, j: Journal, now: nat, records: seq<Envelope>)
    requires JournalOk(j) && (NothingRuns(j) ==> records == [])
    requires forall sid :: RunsLast(j, sid) ==> records == RecoveryRecords(ids, sid, LastTurn(j, sid), now)
    ensures RecoveryOf(ids, j, now, records)
  {
  }

  /** Opening the store: replay the durable log, close what a crash left open, journal each closing.
      It fails exactly when a logged record is too large, an open tool bears a name no result may
      carry, or a recovery record is too large; `left` is the log as it is on disk afterwards. */
  method Reopen(log: seq<Envelope>, finalized: set<SessionId>, ids: RecoveryIds, now: nat, size: Sizes)
    returns (r: Option<RuntimeStore>, left: seq<Envelope>)
    requires LiveLog(log)
    requires Replay(EMPTY, log).Some? ==>
               var m := Replay(EMPTY, log).value;
               forall sid :: RunsLast(m.journal, sid) ==> FreshFor(ids, m.seen, sid, LastTurn(m.journal, sid))
    ensures Replay(EMPTY, log).Some?
    ensures LiveLog(left) && log <= left && AllRecover(ids, left[|log|..]) && LogFits(size, left[|log|..])
    ensures RecoveryBegun(ids, Replay(EMPTY, log).value.journal, now, left[|log|..])
    ensures var j := Replay(EMPTY, log).value.journal;
            && (r.Some? <==> LogFits(size, log) && CanRecover(size, ids, j, now))
            && (r.Some? ==>
                  && fresh(r.value) && fresh(r.value.machine) && r.value.finalized == finalized && r.value.size == size
                  && r.value.Valid() && r.value.journal == left && RecoveryOf(ids, j, now, left[|log|..])
                  && Quiet(r.value.machine.Project())
                  && (NothingRuns(j) ==> r.value.machine.Project() == j)
                  && (forall sid :: RunsLast(j, sid) ==>
                        r.value.machine.Project() == WithLast(j, sid, RecoverTurn(sid, LastTurn(j, sid), now), now))
                  && AllRecovered(j, r.value.machine.Project(), now))
  {
    hide AllRecovered;
    hide LiveLog, Replay, Quiet, FreshFor, OpenNamesValid, Recovers, RecoveryRecords, RecoverTurn, RunsLast, WithLast;
    LiveLogOk(log);
    left := log;
    assert left[|log|..] == [];
    var loaded := forall i :: 0 <= i < |log| ==> Fits(size, log[i]);
    if !loaded {
      return None, left;
    }
    var recovered := RecoverAll(log, ids, now);
    if recovered.None? {
      return None, left;
    }
    var (machine, records) := recovered.value;
    ghost var j := Replay(EMPTY, log).value.journal;
    FitsAll(size, ids, j, now, records);
    var ok;
    ok, left := AppendAll(log, records, size);
    ghost var n: nat :| n <= |records| && left == log + records[..n] && LogFits(size, records[..n])
                        && (ok <==> n == |records|);
    assert (log + records)[..|log| + n] == left && left[|log|..] == records[..n];
    LiveLogPrefix(log + records, |log| + n);
    BeginsRecovery(ids, j, now, records, n);
    if !ok {
      return None, left;
    }
    assert records[..n] == records;
    LiveLogOk(log);
    if NothingRuns(j) {
      NothingToRecover(j, now);
    } else {
      ghost var sid :| RunsLast(j, sid);
      RunningRecovered(j, sid, now);
    }
    var store := new RuntimeStore(left, machine, finalized, size);
    return Some(store), left;
  }

  lemma NothingToRecover(j: Journal, now: nat)
    requires JournalOk(j) && NothingRuns(j)
    ensures AllRecovered(j, j, now)
  {
    NothingRunsIsQuiet(j);
    forall sid, i | sid in j.sessions && 0 <= i < |j.sessions[sid].turns|
      ensures TurnRecovered(j.sessions[sid].turns[i], j.sessions[sid].turns[i], now)
    {
      assert AllClosed(j.sessions[sid].turns[i].tools) && !Busy(j.sessions[sid]);
    }
  }

  lemma RunningRecovered(j: Journal, sid: SessionId, now: nat)
    requires JournalOk(j) && RunsLast(j, sid)
    ensures AllRecovered(j, WithLast(j, sid, RecoverTurn(sid, LastTurn(j, sid), now), now), now)
  {
    AtMostOneRuns(j, sid);
    var after := WithLast(j, sid, RecoverTurn(sid, LastTurn(j, sid), now), now);
    forall other, i | other in j.sessions && 0 <= i < |j.sessions[other].turns|
      ensures TurnRecovered(j.sessions[other].turns[i], after.sessions[other].turns[i], now)
    {
      assert SessionOk(other, j.sessions[other]) && TurnOk(other, j.sessions[other].turns[i]);
      if other == sid && i == |j.sessions[sid].turns| - 1 {
        hide JournalOk;
      } else {
        assert other != sid ==> !Busy(j.sessions[other]);
        assert AllClosed(j.sessions[other].turns[i].tools);
      }
    }
  }

  lemma FitsAll(size: Sizes, ids: RecoveryIds, j: Journal, now: nat, records: seq<Envelope>)
    requires RecoveryOf(ids, j, now, records)
    requires forall sid :: RunsLast(j, sid) ==> OpenNamesValid(LastTurn(j, sid).tools)
    ensures CanRecover(size, ids, j, now) <==> LogFits(size, records)
  {
    if !NothingRuns(j) {
      var sid :| RunsLast(j, sid);
      assert LogFits(size, RecoveryRecords(ids, sid, LastTurn(j, sid), now)) <==> LogFits(size, records);
    }
  }

  lemma RecoveredMiddle(m: Machine, first: Journal, busy: SessionId, sid: SessionId, now: nat, ids: RecoveryIds)
    requires RunsLast(first, busy) && RunsLast(m.journal, sid)
    requires var turn := LastTurn(first, busy);
             ToolsRecovered(m, first, busy, turn, |turn.tools|, now, [], ids)
    ensures sid == busy
    ensures var turn := LastTurn(m.journal, sid);
            && AllClosed(turn.tools) && ids.turn(sid, turn.turnId) !in m.seen
            && TurnRecovery(ids, sid, turn, now) == TurnRecovery(ids, sid, LastTurn(first, sid), now)
            && WithLast(m.journal, sid, RecoverTurn(sid, turn, now), now)
               == WithLast(first, sid, RecoverTurn(sid, LastTurn(first, sid), now), now)
  {
    hide JournalOk;
    AtMostOneRuns(m.journal, sid);
    var tools := LastTurn(first, busy).tools;
    assert tools[..|tools|] == tools && tools[|tools|..] == [];
    assert LastTurn(m.journal, sid).tools == RecoverTools(tools, now);
    var ended := RecoverTurn(sid, LastTurn(m.journal, sid), now);
    WithLastTwice(first, sid, LastTurn(m.journal, sid), m.journal.sessions[sid].updatedAt, ended, now);
    assert RecoverTools(RecoverTools(tools, now), now) == RecoverTools(tools, now);
  }
}
