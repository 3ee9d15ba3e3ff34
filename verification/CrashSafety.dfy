/** Agent runs, crashes and restarts in any number: the durable log can always be opened again. */
module CrashSafety {
  import opened Protocol
  import opened Session
  import opened SessionMachines
  import opened JournalGrowth
  import opened JournalInvariant
  import opened ReplayLaws
  import opened Store
  import opened StoreRecovery
  import opened RecoveryLaws
  import Invocation

  type PermissionMode = Invocation.PermissionMode
  import opened Budget
  import opened ToolDriver
  import opened AgentLoop

  // ---------------------------------------------------------------- names in the log and in the journal

  ghost predicate ToolsNamed(tools: seq<ToolRecord>) {
    forall k :: 0 <= k < |tools| ==> ValidCode(tools[k].invocation.call.name)
  }

  ghost predicate TurnsNamed(turns: seq<TurnRecord>) {
    forall i :: 0 <= i < |turns| ==> ToolsNamed(turns[i].tools)
  }

  ghost predicate AllNamed(j: Journal) {
    forall sid :: sid in j.sessions ==> TurnsNamed(j.sessions[sid].turns)
  }

  ghost predicate EditNames(edit: TurnEdit) {
    edit.RequestTool? ==> ValidCode(edit.invocation.call.name)
  }

  lemma EditTurnNames(turn: TurnRecord, edit: TurnEdit)
    requires EditTurn(turn, edit).Some?
    ensures ToolsNamed(EditTurn(turn, edit).value.tools) <==> ToolsNamed(turn.tools) && EditNames(edit)
  {
    hide ValidCode;
    var after := EditTurn(turn, edit).value;
    if edit.RequestTool? {
      assert after.tools[|turn.tools|].invocation == edit.invocation;
    }
    assert forall k :: 0 <= k < |turn.tools| ==> after.tools[k].invocation == turn.tools[k].invocation;
  }

  lemma EditSessionNames(j: Journal, sid: SessionId, tid: TurnId, edit: TurnEdit, at: nat)
    requires EditSession(j, sid, tid, edit, at).Some?
    ensures AllNamed(EditSession(j, sid, tid, edit, at).value) <==> AllNamed(j) && EditNames(edit)
  {
    hide ToolsNamed, EditTurn, EditNames;
    var s := j.sessions[sid];
    var i := TurnIndex(s.turns, tid);
    EditTurnNames(s.turns[i], edit);
    var after := EditSession(j, sid, tid, edit, at).value;
    var turns := after.sessions[sid].turns;
    assert forall k :: 0 <= k < |turns| && k != i ==> turns[k] == s.turns[k];
    if AllNamed(after) {
      assert TurnsNamed(turns);
      assert ToolsNamed(turns[i].tools);
      forall k | 0 <= k < |s.turns| ensures ToolsNamed(s.turns[k].tools) {
        assert ToolsNamed(turns[k].tools);
      }
      forall other | other in j.sessions ensures TurnsNamed(j.sessions[other].turns) {
        assert other != sid ==> TurnsNamed(after.sessions[other].turns);
      }
    }
  }

  /** A live record changes the tools' names only by requesting one. */
  lemma RecordNames(j: Journal, record: JournalRecord)
    requires Live(j, record) && ApplyRecord(j, record).Some?
    ensures AllNamed(ApplyRecord(j, record).value) <==> AllNamed(j) && NamesTool(record)
  {
    hide EditSession, TurnsNamed;
    match record
    case TurnDelta(sid, tid, delta, at) => EditSessionNames(j, sid, tid, AppendDelta(delta), at);
    case TurnTerminal(sid, receipt, message, at) =>
      EditSessionNames(j, sid, receipt.turnId, Finish(receipt, message, at), at);
    case RecoveryApplied(sid, receipt, message, at) =>
      EditSessionNames(j, sid, receipt.turnId, Finish(receipt, message, at), at);
    case ToolRequested(sid, tid, invocation, at) =>
      EditSessionNames(j, sid, tid, RequestTool(invocation, at), at);
    case ToolDecided(sid, tid, decision, at) => EditSessionNames(j, sid, tid, DecideTool(decision, at), at);
    case ToolStarted(sid, tid, callId, at) => EditSessionNames(j, sid, tid, StartTool(callId, at), at);
    case ToolTerminal(sid, tid, result, at) => EditSessionNames(j, sid, tid, FinishTool(result, at), at);
    case TurnStarted(sid, _, turn) =>
      OneTurnMore(j.sessions[sid].turns, turn);
      SameNames(j, ApplyRecord(j, record).value);
    case SessionCreated(session) =>
      NoTurnsNamed();
      var after := ApplyRecord(j, record).value;
      assert after.sessions[session.sessionId].turns == [];
      SameNames(j, after);
    case _ => SameNames(j, ApplyRecord(j, record).value);
  }

  lemma NoTurnsNamed()
    ensures TurnsNamed([])
  {
  }

  lemma OneTurnMore(turns: seq<TurnRecord>, turn: TurnRecord)
    requires turn.tools == []
    ensures TurnsNamed(turns + [turn]) <==> TurnsNamed(turns)
  {
    var all := turns + [turn];
    if TurnsNamed(all) {
      forall i | 0 <= i < |turns| ensures ToolsNamed(turns[i].tools) {
        assert ToolsNamed(all[i].tools);
      }
    }
  }

  lemma SameNames(a: Journal, b: Journal)
    requires forall sid :: sid in a.sessions ==>
               sid in b.sessions && (TurnsNamed(b.sessions[sid].turns) <==> TurnsNamed(a.sessions[sid].turns))
    requires forall sid :: sid in b.sessions && sid !in a.sessions ==> TurnsNamed(b.sessions[sid].turns)
    ensures AllNamed(b) <==> AllNamed(a)
  {
    hide TurnsNamed;
  }

  /** A live log names its tools validly exactly when the journal it replays to does. */
  lemma {:induction false} NamesAgree(log: seq<Envelope>)
    requires LiveLog(log)
    ensures Replay(EMPTY, log).Some?
    ensures NamesTools(log) <==> AllNamed(Replay(EMPTY, log).value.journal)
  {
    hide ApplyRecord, Live, NamesTool, AllNamed;
    if log == [] {
      NothingNamed();
    } else {
      var n := |log| - 1;
      NamesAgree(log[..n]);
      RecordNames(Replay(EMPTY, log[..n]).value.journal, log[n].record);
      assert NamesTools(log) <==> NamesTools(log[..n]) && NamesTool(log[n].record) by {
        assert forall i :: 0 <= i < n ==> log[..n][i] == log[i];
      }
    }
  }

  lemma NothingNamed()
    ensures AllNamed(EMPTY.journal)
  {
  }

  // ---------------------------------------------------------------- whose ids are in the log

  /** Recovery ids never collide with each other or with what the driver issues. */
  ghost predicate Derived(ids: RecoveryIds) {
    && (forall sid, tid, c :: ids.tool(sid, tid, c) < 0)
    && (forall sid, tid :: ids.turn(sid, tid) < 0)
    && (forall sid, tid, c, sid', tid', c' ::
          ids.tool(sid, tid, c) == ids.tool(sid', tid', c') ==> sid == sid' && tid == tid' && c == c')
    && (forall sid, tid, sid', tid' :: ids.turn(sid, tid) == ids.turn(sid', tid') ==> sid == sid' && tid == tid')
    && (forall sid, tid, c, sid', tid' :: ids.tool(sid, tid, c) != ids.turn(sid', tid'))
  }

  /** Written by the driver or by recovery. */
  ghost predicate Written(ids: RecoveryIds, env: Envelope) {
    env.recordId < 0 ==> Recovers(ids, env)
  }

  ghost predicate AllWritten(ids: RecoveryIds, log: seq<Envelope>) {
    forall i :: 0 <= i < |log| ==> Written(ids, log[i])
  }

  /** What the record closes is closed. */
  ghost predicate Settled(j: Journal, record: JournalRecord) {
    match record
    case ToolTerminal(sid, tid, result, _) =>
      && sid in j.sessions
      && var turns := j.sessions[sid].turns;
      var i := TurnIndex(turns, tid);
      && i < |turns|
      && var k := ToolIndex(turns[i].tools, result.callId);
      k < |turns[i].tools| && Closed(turns[i].tools[k])
    case RecoveryApplied(sid, receipt, _, _) =>
      && sid in j.sessions
      && var turns := j.sessions[sid].turns;
      var i := TurnIndex(turns, receipt.turnId);
      i < |turns| && turns[i].status != Running
    case _ => true
  }

  lemma {:induction false} TurnIndexIs(turns: seq<TurnRecord>, tid: TurnId, i: nat)
    requires i < |turns| && turns[i].turnId == tid && forall k :: 0 <= k < i ==> turns[k].turnId != tid
    ensures TurnIndex(turns, tid) == i
  {
  }

  lemma {:induction false} ToolIndexIs(tools: seq<ToolRecord>, c: CallId, i: nat)
    requires i < |tools| && tools[i].invocation.call.callId == c
    requires forall k :: 0 <= k < i ==> tools[k].invocation.call.callId != c
    ensures ToolIndex(tools, c) == i
  {
  }

  lemma AppliedSettles(j: Journal, record: JournalRecord)
    requires ApplyRecord(j, record).Some?
    ensures Settled(ApplyRecord(j, record).value, record)
  {
    var after := ApplyRecord(j, record).value;
    match record
    case ToolTerminal(sid, tid, result, _) =>
      var turns := j.sessions[sid].turns;
      var i := TurnIndex(turns, tid);
      var k := ToolIndex(turns[i].tools, result.callId);
      TurnIndexIs(after.sessions[sid].turns, tid, i);
      ToolIndexIs(after.sessions[sid].turns[i].tools, result.callId, k);
    case RecoveryApplied(sid, receipt, _, _) =>
      TurnIndexIs(after.sessions[sid].turns, receipt.turnId, TurnIndex(j.sessions[sid].turns, receipt.turnId));
    case _ =>
  }

  lemma SettledStays(a: Journal, b: Journal, record: JournalRecord)
    requires Settled(a, record) && Grows(a, b)
    ensures Settled(b, record)
  {
    if record.ToolTerminal? || record.RecoveryApplied? {
      var before, after := a.sessions[record.sid].turns, b.sessions[record.sid].turns;
      assert SessionGrows(a.sessions[record.sid], b.sessions[record.sid]);
      assert forall i :: 0 <= i < |before| ==> TurnGrows(before[i], after[i]);
      var tid := if record.ToolTerminal? then record.tid else record.receipt.turnId;
      var i := TurnIndex(before, tid);
      TurnIndexIs(after, tid, i);
      if record.ToolTerminal? {
        var k := ToolIndex(before[i].tools, record.result.callId);
        assert forall l :: 0 <= l < |before[i].tools| ==> ToolGrows(before[i].tools[l], after[i].tools[l]);
        ToolIndexIs(after[i].tools, record.result.callId, k);
      }
    }
  }

  /** Whatever a log has closed stays closed, and the machine remembers exactly what was logged. */
  lemma {:induction false} LogSettles(ids: RecoveryIds, log: seq<Envelope>)
    requires LiveLog(log) && AllWritten(ids, log)
    ensures Replay(EMPTY, log).Some?
    ensures var m := Replay(EMPTY, log).value;
            forall id :: id in m.seen ==>
              m.seen[id].recordId == id && Written(ids, m.seen[id]) && Settled(m.journal, m.seen[id].record)
  {
    hide ApplyRecord, Live, Written, Settled, Grows;
    if log != [] {
      var n := |log| - 1;
      LogSettles(ids, log[..n]);
      var before, m := Replay(EMPTY, log[..n]).value, Replay(EMPTY, log).value;
      AppliedSettles(before.journal, log[n].record);
      RecordGrows(before.journal, log[n].record);
      forall id | id in before.seen ensures Settled(m.journal, before.seen[id].record) {
        SettledStays(before.journal, m.journal, before.seen[id].record);
      }
    }
  }

  /** Nothing that is still open has used up the id of its recovery. */
  lemma RecoveryIsFresh(ids: RecoveryIds, log: seq<Envelope>, sid: SessionId)
    requires LiveLog(log) && AllWritten(ids, log) && Derived(ids)
    requires Replay(EMPTY, log).Some? && RunsLast(Replay(EMPTY, log).value.journal, sid)
    ensures var m := Replay(EMPTY, log).value; FreshFor(ids, m.seen, sid, LastTurn(m.journal, sid))
  {
    hide LiveLog, Replay, JournalOk;
    LiveLogOk(log);
    LogSettles(ids, log);
    var m := Replay(EMPTY, log).value;
    RunningIsFound(m.journal, sid);
    LastTurnOk(m.journal, sid);
    var turn := LastTurn(m.journal, sid);
    assert ids.turn(sid, turn.turnId) !in m.seen;
    forall k | 0 <= k < |turn.tools| && !Closed(turn.tools[k])
      ensures ids.tool(sid, turn.turnId, turn.tools[k].invocation.call.callId) !in m.seen
    {
      ToolIsFound(sid, turn, k);
    }
    assert DistinctCalls(turn.tools);
  }

  // ---------------------------------------------------------------- crashes

  /** An id that the driver may issue next. */
  function Above(ids: set<int>): (next: nat)
    ensures forall id :: id in ids ==> id < next
  {
    var negated := set id | id in ids :: -id;
    assert forall id :: id in ids ==> -id in negated;
    if negated == {} || Least(negated) > 0 then 0 else 1 - Least(negated)
  }

  /** A log the program may have left: every record was live and fits, tools have valid names, and the
      ids are the driver's or recovery's own. */
  ghost predicate Sane(size: Sizes, ids: RecoveryIds, log: seq<Envelope>) {
    LiveLog(log) && NamesTools(log) && AllWritten(ids, log) && LogFits(size, log)
  }

  lemma SanePrefix(size: Sizes, ids: RecoveryIds, log: seq<Envelope>, n: nat)
    requires Sane(size, ids, log) && n <= |log|
    ensures Sane(size, ids, log[..n])
  {
    hide LiveLog;
    LiveLogPrefix(log, n);
    assert forall i :: 0 <= i < n ==> log[..n][i] == log[i];
  }

  /** Open tools of a sane log can be closed under their names. */
  lemma OpenToolsAreNamed(log: seq<Envelope>, sid: SessionId)
    requires LiveLog(log) && NamesTools(log)
    requires Replay(EMPTY, log).Some? && RunsLast(Replay(EMPTY, log).value.journal, sid)
    ensures OpenNamesValid(LastTurn(Replay(EMPTY, log).value.journal, sid).tools)
  {
    hide LiveLog, Replay, ValidCode;
    NamesAgree(log);
    assert TurnsNamed(Replay(EMPTY, log).value.journal.sessions[sid].turns);
  }

  /** Recovery requests no tools, and writes under its own ids. */
  lemma RecoveredIsSane(size: Sizes, ids: RecoveryIds, before: seq<Envelope>, after: seq<Envelope>)
    requires Sane(size, ids, before) && before <= after && LiveLog(after)
    requires AllRecover(ids, after[|before|..]) && LogFits(size, after[|before|..])
    ensures Sane(size, ids, after)
  {
    hide LiveLog, Fits;
    forall i | 0 <= i < |after| ensures Written(ids, after[i]) && NamesTool(after[i].record) && Fits(size, after[i]) {
      if i < |before| {
        assert after[i] == before[i];
      } else {
        assert after[i] == after[|before|..][i - |before|];
      }
    }
  }

  /** The records that close what this log left open fit: above all the one that carries the draft. */
  ghost predicate RecoveryFits(size: Sizes, ids: RecoveryIds, log: seq<Envelope>, now: nat) {
    Replay(EMPTY, log).Some? ==>
      var j := Replay(EMPTY, log).value.journal;
      forall sid :: RunsLast(j, sid) ==> LogFits(size, RecoveryRecords(ids, sid, LastTurn(j, sid), now))
  }

  lemma RecoverableIfFits(size: Sizes, ids: RecoveryIds, log: seq<Envelope>, now: nat)
    requires LiveLog(log) && NamesTools(log)
    ensures Replay(EMPTY, log).Some?
    ensures CanRecover(size, ids, Replay(EMPTY, log).value.journal, now) <==> RecoveryFits(size, ids, log, now)
  {
    hide LiveLog, Replay, OpenNamesValid, RecoveryRecords, LogFits;
    LiveLogOk(log);
    forall sid | RunsLast(Replay(EMPTY, log).value.journal, sid)
      ensures OpenNamesValid(LastTurn(Replay(EMPTY, log).value.journal, sid).tools)
    {
      OpenToolsAreNamed(log, sid);
    }
  }

  /** Restarts on what a crash has left of a log. It fails exactly when a recovery record does not fit.
      Either way no durable record is lost, and the log on disk can itself be crashed and reopened. */
  method Restart(log: seq<Envelope>, finalized: set<SessionId>, ids: RecoveryIds, now: nat, size: Sizes)
    returns (r: Option<RuntimeStore>, left: seq<Envelope>)
    requires Sane(size, ids, log) && Derived(ids)
    ensures Sane(size, ids, left) && log <= left
    ensures r.Some? <==> RecoveryFits(size, ids, log, now)
    ensures r.Some? ==> IsOpen(r.value, finalized, size, left) && fresh(r.value) && fresh(r.value.machine)
    ensures Replay(EMPTY, log).Some? && RecoveryBegun(ids, Replay(EMPTY, log).value.journal, now, left[|log|..])
  {
    hide LiveLog, Replay, RecoveryBegun, FreshFor, Quiet, NamesTools, Derived, Recovers, CanRecover, RecoveryFits,
         LogFits;
    LiveLogOk(log);
    forall sid | RunsLast(Replay(EMPTY, log).value.journal, sid)
      ensures FreshFor(ids, Replay(EMPTY, log).value.seen, sid, LastTurn(Replay(EMPTY, log).value.journal, sid))
    {
      RecoveryIsFresh(ids, log, sid);
    }
    RecoverableIfFits(size, ids, log, now);
    r, left := Reopen(log, finalized, ids, now, size);
    RecoveredIsSane(size, ids, log, left);
  }

  /** The store is open on this log, with nothing left running or open. */
  ghost predicate IsOpen(store: RuntimeStore, finalized: set<SessionId>, size: Sizes, log: seq<Envelope>)
    reads store, store.machine
  {
    && store.Valid() && store.journal == log && store.finalized == finalized && store.size == size
    && Quiet(store.machine.Project())
  }

  // ---------------------------------------------------------------- many crashes

  /** A restart: the log it found, and its clock. */
  datatype Opening = Opening(log: seq<Envelope>, now: nat)

  /** Each restart finds all that earlier ones found, and `left` is what the last one leaves. */
  ghost predicate Chained(size: Sizes, ids: RecoveryIds, openings: seq<Opening>, left: seq<Envelope>) {
    && (forall i :: 0 <= i < |openings| ==> Sane(size, ids, openings[i].log) && openings[i].log <= left)
    && (forall i, k :: 0 <= i < k < |openings| ==> openings[i].log <= openings[k].log)
  }

  /** Between two logs of a sane store no call that was open in the first has finished, other than as
      recovery closes it. */
  ghost predicate LeftUnfinished(log: seq<Envelope>, longer: seq<Envelope>) {
    && Replay(EMPTY, log).Some? && Replay(EMPTY, longer).Some?
    && NeverFinished(Replay(EMPTY, log).value.journal, Replay(EMPTY, longer).value.journal)
  }

  /** So it is between any two restarts, and up to what is left. */
  ghost predicate AllLeftUnfinished(openings: seq<Opening>, left: seq<Envelope>) {
    && (forall i, k :: 0 <= i < k < |openings| ==> LeftUnfinished(openings[i].log, openings[k].log))
    && (forall i :: 0 <= i < |openings| ==> LeftUnfinished(openings[i].log, left))
  }

  lemma RestartLeavesUnfinished(size: Sizes, ids: RecoveryIds, log: seq<Envelope>, now: nat, left: seq<Envelope>,
                              n: nat)
    requires Sane(size, ids, log) && Sane(size, ids, left) && log <= left && |log| <= n <= |left|
    requires Replay(EMPTY, log).Some? && RecoveryBegun(ids, Replay(EMPTY, log).value.journal, now, left[|log|..])
    ensures LeftUnfinished(log, left[..n])
  {
    hide LiveLog, Replay, RecoveryBegun;
    var records := left[|log|..];
    assert left[..n] == log + records[..n - |log|];
    LiveLogPrefix(left, n);
    BegunPrefix(ids, Replay(EMPTY, log).value.journal, now, records, n - |log|);
    RecoveryNeverFinishes(ids, log, now, records[..n - |log|]);
  }

  lemma BegunPrefix(ids: RecoveryIds, j: Journal, now: nat, records: seq<Envelope>, n: nat)
    requires RecoveryBegun(ids, j, now, records) && n <= |records|
    ensures RecoveryBegun(ids, j, now, records[..n])
  {
    hide RecoveryRecords;
  }

  lemma UnfinishedTrans(a: seq<Envelope>, b: seq<Envelope>, c: seq<Envelope>)
    requires LeftUnfinished(a, b) && LeftUnfinished(b, c) && LiveLog(b) && LiveLog(c) && b <= c
    ensures LeftUnfinished(a, c)
  {
    hide LiveLog, Replay, NeverFinished, Grows;
    LongerLogGrows(b, c);
    StillNeverFinished(Replay(EMPTY, a).value.journal, Replay(EMPTY, b).value.journal, Replay(EMPTY, c).value.journal);
  }

  /** One more restart, on a log that leaves unfinished what the last one found. */
  lemma UnfinishedMore(size: Sizes, ids: RecoveryIds, openings: seq<Opening>, earlier: seq<Envelope>,
                       log: seq<Envelope>, now: nat, left: seq<Envelope>)
    requires AllLeftUnfinished(openings, earlier) && Chained(size, ids, openings, earlier)
    requires Sane(size, ids, log) && Sane(size, ids, left) && log <= left && LeftUnfinished(log, left)
    requires openings != [] ==>
               var last := openings[|openings| - 1].log; last <= log && LeftUnfinished(last, log)
    ensures AllLeftUnfinished(openings + [Opening(log, now)], left)
  {
    hide LeftUnfinished, LiveLog;
    var more := openings + [Opening(log, now)];
    forall i | 0 <= i < |openings|
      ensures LeftUnfinished(openings[i].log, log) && LeftUnfinished(openings[i].log, left)
    {
      var last := openings[|openings| - 1].log;
      if i < |openings| - 1 {
        UnfinishedTrans(openings[i].log, last, log);
      }
      UnfinishedTrans(openings[i].log, log, left);
    }
    assert forall i :: 0 <= i < |openings| ==> more[i] == openings[i];
  }

  /** What a quiet store goes on to write finishes nothing that was open before. */
  lemma QuietLeavesUnfinished(size: Sizes, ids: RecoveryIds, log: seq<Envelope>, longer: seq<Envelope>)
    requires Sane(size, ids, log) && Sane(size, ids, longer) && log <= longer
    requires Replay(EMPTY, log).Some? && Quiet(Replay(EMPTY, log).value.journal)
    ensures LeftUnfinished(log, longer)
  {
    hide LiveLog, Replay, NeverFinished, Grows, Quiet;
    LongerLogGrows(log, longer);
    QuietNeverFinishes(Replay(EMPTY, log).value.journal, Replay(EMPTY, longer).value.journal);
  }

  ghost predicate AllRecoverable(size: Sizes, ids: RecoveryIds, openings: seq<Opening>) {
    forall i :: 0 <= i < |openings| ==> RecoveryFits(size, ids, openings[i].log, openings[i].now)
  }

  lemma ChainMore(size: Sizes, ids: RecoveryIds, openings: seq<Opening>, left: seq<Envelope>, log: seq<Envelope>,
                  now: nat, left': seq<Envelope>)
    requires Chained(size, ids, openings, left) && Sane(size, ids, log) && log <= left'
    requires openings != [] ==> openings[|openings| - 1].log <= log
    ensures Chained(size, ids, openings + [Opening(log, now)], left')
    ensures AllRecoverable(size, ids, openings + [Opening(log, now)])
            <==> AllRecoverable(size, ids, openings) && RecoveryFits(size, ids, log, now)
  {
    hide Sane, RecoveryFits;
    var more := openings + [Opening(log, now)];
    assert more[|openings|] == Opening(log, now);
    assert forall i :: 0 <= i < |openings| ==> more[i] == openings[i];
  }

  function AtMost(a: nat, b: nat): nat { if a < b then a else b }

  /** A restart that is cut off: how many of its records it still wrote, and the clock of the next one. */
  datatype Cut = Cut(kept: nat, now: nat)

  /** Restarts until a restart is not itself cut off while it writes its recovery records, or fails. */
  method RestartAgain(log: seq<Envelope>, cuts: seq<Cut>, finalized: set<SessionId>, ids: RecoveryIds, now: nat,
                      size: Sizes, ghost before: seq<Opening>, ghost earlier: seq<Envelope>)
    returns (r: Option<RuntimeStore>, left: seq<Envelope>, ghost openings: seq<Opening>)
    requires Sane(size, ids, log) && Derived(ids)
    requires Chained(size, ids, before, earlier) && earlier <= log && AllRecoverable(size, ids, before)
    requires AllLeftUnfinished(before, earlier)
    requires before != [] ==> LeftUnfinished(before[|before| - 1].log, log)
    ensures Sane(size, ids, left) && log <= left
    ensures before + [Opening(log, now)] <= openings && Chained(size, ids, openings, left)
    ensures r.Some? <==> AllRecoverable(size, ids, openings)
    ensures r.Some? ==> IsOpen(r.value, finalized, size, left) && fresh(r.value) && fresh(r.value.machine)
    ensures |openings| <= |before| + 1 + |cuts| && (r.Some? ==> |openings| == |before| + 1 + |cuts|)
    ensures AllLeftUnfinished(openings, left)
  {
    hide Sane, Replay, Quiet, Derived, RuntimeStore.Valid, RecoveryFits, Chained, AllRecoverable, AllLeftUnfinished,
         LeftUnfinished, RecoveryBegun;
    LastOpened(size, ids, before, earlier);
    r, left := Restart(log, finalized, ids, now, size);
    openings := before + [Opening(log, now)];
    RestartLeavesUnfinished(size, ids, log, now, left, |left|);
    assert left[..|left|] == left;
    UnfinishedMore(size, ids, before, earlier, log, now, left);
    ghost var clock := now;
    ChainMore(size, ids, before, earlier, log, now, left);
    var found := log;
    for i := 0 to |cuts|
      invariant Sane(size, ids, left) && log <= found <= left
      invariant before + [Opening(log, now)] <= openings && Chained(size, ids, openings, left)
      invariant openings[|openings| - 1].log == found && AllLeftUnfinished(openings, left)
      invariant Replay(EMPTY, found).Some? && Sane(size, ids, found)
      invariant RecoveryBegun(ids, Replay(EMPTY, found).value.journal, clock, left[|found|..])
      invariant r.Some? <==> AllRecoverable(size, ids, openings)
      invariant r.Some? ==> IsOpen(r.value, finalized, size, left) && fresh(r.value) && fresh(r.value.machine)
      invariant |openings| <= |before| + 1 + i && (r.Some? ==> |openings| == |before| + 1 + i)
    {
      if r.None? {
        return;
      }
      var n := AtMost(|found| + cuts[i].kept, |left|);
      ghost var last := left;
      SanePrefix(size, ids, left, n);
      RestartLeavesUnfinished(size, ids, found, clock, left, n);
      found := left[..n];
      r, left := Restart(found, finalized, ids, cuts[i].now, size);
      RestartLeavesUnfinished(size, ids, found, cuts[i].now, left, |left|);
      assert left[..|left|] == left;
      UnfinishedMore(size, ids, openings, last, found, cuts[i].now, left);
      ChainMore(size, ids, openings, last, found, cuts[i].now, left);
      openings := openings + [Opening(found, cuts[i].now)];
      clock := cuts[i].now;
    }
  }

  lemma LastOpened(size: Sizes, ids: RecoveryIds, openings: seq<Opening>, left: seq<Envelope>)
    requires Chained(size, ids, openings, left)
    ensures openings != [] ==> openings[|openings| - 1].log <= left
  {
  }

  /** One life of the program: a request by the user, served until a crash (or nothing) cuts the log
      off somewhere behind what was there at its start, then a restart, itself cut off any number of
      times. */
  datatype Life = Life(turnId: TurnId, requestId: RequestId, input: string, maxOutputTokens: nat, now: nat,
                       definitions: seq<ToolDefinition>, limits: AgentLimits, mode: PermissionMode, startedAt: nat,
                       rounds: nat -> Round, written: nat, cuts: seq<Cut>, restartedAt: nat)

  /** What a log has fixed stays as it is in every longer log. */
  lemma LongerLogGrows(log: seq<Envelope>, longer: seq<Envelope>)
    requires LiveLog(log) && LiveLog(longer) && log <= longer
    ensures Replay(EMPTY, log).Some? && Replay(EMPTY, longer).Some?
    ensures Grows(Replay(EMPTY, log).value.journal, Replay(EMPTY, longer).value.journal)
  {
    LiveLogOk(log);
    LiveLogOk(longer);
    assert longer == log + longer[|log|..];
    ReplayConcat(EMPTY, log, longer[|log|..]);
    ReplayGrows(Replay(EMPTY, log).value, longer[|log|..]);
  }

  /** What the driver appends keeps a log sane. */
  lemma StaysSane(size: Sizes, ids: RecoveryIds, before: seq<Envelope>, after: seq<Envelope>)
    requires Sane(size, ids, before) && Extends(before, after) && LiveLog(after) && LogFits(size, after)
    ensures Sane(size, ids, after) && before <= after
  {
    hide LiveLog, LogFits;
    forall i | 0 <= i < |after| ensures NamesTool(after[i].record) && Written(ids, after[i]) {
      assert i < |before| ==> after[i] == before[i];
    }
  }

  /** Serves one request and crashes; what is left is a log a restart can open. */
  method LiveThenCrash(store: RuntimeStore, ghost ids: RecoveryIds, life: Life) returns (left: seq<Envelope>)
    requires store.Valid() && Sane(store.size, ids, store.journal)
    modifies store
    ensures Sane(store.size, ids, left) && old(store.journal) <= left
  {
    hide LiveLog, Replay, Extends, Delivered, NamesTools, AllWritten, LogFits, RunFails, CameTo,
         StartError;
    var log := store.journal;
    var driver := new Driver(store, Above(store.recordsById.Keys));
    var _, _, _, _ := RunAgent(driver, life.turnId, life.requestId, life.input, life.maxOutputTokens, life.now,
                            life.definitions, life.limits, life.mode, life.startedAt, life.rounds);
    StaysSane(store.size, ids, log, store.journal);
    var n := AtMost(|log| + life.written, |store.journal|);
    SanePrefix(store.size, ids, store.journal, n);
    return store.journal[..n];
  }

  /** No restart, early or late, undoes what an earlier one found: neither a record nor a decision, a
      start, a result or an ended turn. */
  ghost predicate NothingUndone(openings: seq<Opening>, left: seq<Envelope>) {
    && (forall i, k :: 0 <= i < k < |openings| ==> KeptBy(openings[i].log, openings[k].log))
    && (forall i :: 0 <= i < |openings| ==> KeptBy(openings[i].log, left))
  }

  ghost predicate KeptBy(log: seq<Envelope>, longer: seq<Envelope>) {
    && log <= longer && Replay(EMPTY, log).Some? && Replay(EMPTY, longer).Some?
    && Grows(Replay(EMPTY, log).value.journal, Replay(EMPTY, longer).value.journal)
  }

  lemma ChainedIsKept(size: Sizes, ids: RecoveryIds, openings: seq<Opening>, left: seq<Envelope>)
    requires Chained(size, ids, openings, left) && Sane(size, ids, left)
    ensures NothingUndone(openings, left)
  {
    hide LiveLog, Replay, Grows;
    forall i, k | 0 <= i < k < |openings| ensures KeptBy(openings[i].log, openings[k].log) {
      LongerLogGrows(openings[i].log, openings[k].log);
    }
    forall i | 0 <= i < |openings| ensures KeptBy(openings[i].log, left) {
      LongerLogGrows(openings[i].log, left);
    }
  }

  function Restarts(lives: seq<Life>): nat {
    if lives == [] then 0 else Restarts(lives[..|lives| - 1]) + 1 + |lives[|lives| - 1].cuts|
  }

  lemma {:induction false} FewerRestarts(lives: seq<Life>, n: nat)
    requires n <= |lives|
    ensures Restarts(lives[..n]) <= Restarts(lives)
  {
    if n < |lives| {
      FewerRestarts(lives[..|lives| - 1], n);
      assert lives[..|lives| - 1][..n] == lives[..n];
    } else {
      assert lives[..n] == lives;
    }
  }

  /** Any number of lives, each ended by a crash at any point: every restart succeeds exactly if the
      recovery records of every log found fit; nothing durable is ever undone; no call that a crash left
      open ever ends but as recovery closes it, so none ever succeeds; and when all goes well nothing is left
      running or open in the end. */
  method Survive(log: seq<Envelope>, finalized: set<SessionId>, ids: RecoveryIds, openedAt: nat, size: Sizes,
                 lives: seq<Life>)
    returns (r: Option<RuntimeStore>, left: seq<Envelope>, ghost openings: seq<Opening>)
    requires Sane(size, ids, log) && Derived(ids)
    ensures 1 <= |openings| <= 1 + Restarts(lives) && openings[0] == Opening(log, openedAt)
    ensures r.Some? <==> AllRecoverable(size, ids, openings)
    ensures r.Some? ==> IsOpen(r.value, finalized, size, left) && |openings| == 1 + Restarts(lives)
    ensures Sane(size, ids, left) && NothingUndone(openings, left)
    ensures AllLeftUnfinished(openings, left)
  {
    hide Sane, Replay, Quiet, Derived, Grows, AllRecoverable, Chained, NothingUndone, AllLeftUnfinished, LeftUnfinished;
    NoOpenings(size, ids, log);
    r, left, openings := RestartAgain(log, [], finalized, ids, openedAt, size, [], log);
    assert lives[..0] == [];
    for i := 0 to |lives|
      invariant Sane(size, ids, left) && Chained(size, ids, openings, left) && AllLeftUnfinished(openings, left)
      invariant openings != [] && openings[0] == Opening(log, openedAt)
      invariant r.Some? <==> AllRecoverable(size, ids, openings)
      invariant r.Some? ==> IsOpen(r.value, finalized, size, left) && fresh(r.value)
      invariant |openings| <= 1 + Restarts(lives[..i]) && (r.Some? ==> |openings| == 1 + Restarts(lives[..i]))
    {
      if r.None? {
        FewerRestarts(lives, i);
        break;
      }
      LastUnfinished(openings, left);
      ghost var journal := r.value.machine.View();
      var found := LiveThenCrash(r.value, ids, lives[i]);
      QuietLeavesUnfinished(size, ids, left, found);
      SaneIsLive(size, ids, left);
      SaneIsLive(size, ids, found);
      UnfinishedTrans(openings[|openings| - 1].log, left, found);
      assert lives[..i + 1][..i] == lives[..i];
      r, left, openings :=
        RestartAgain(found, lives[i].cuts, finalized, ids, lives[i].restartedAt, size, openings, left);
    }
    assert lives[..|lives|] == lives;
    ChainedIsKept(size, ids, openings, left);
  }

  lemma LastUnfinished(openings: seq<Opening>, left: seq<Envelope>)
    requires AllLeftUnfinished(openings, left) && openings != []
    ensures LeftUnfinished(openings[|openings| - 1].log, left)
  {
    hide LeftUnfinished;
  }

  lemma SaneIsLive(size: Sizes, ids: RecoveryIds, log: seq<Envelope>)
    requires Sane(size, ids, log)
    ensures LiveLog(log)
  {
    hide LiveLog;
  }

  lemma NoOpenings(size: Sizes, ids: RecoveryIds, log: seq<Envelope>)
    ensures Chained(size, ids, [], log) && AllRecoverable(size, ids, []) && AllLeftUnfinished([], log)
  {
  }
}
