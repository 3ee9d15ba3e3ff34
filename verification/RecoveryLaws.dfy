/** What recovery does to the calls that a crash left open, however far it gets. */
module RecoveryLaws {
  import opened Protocol
  import opened Session
  import opened ReplayLaws
  import opened JournalGrowth
  import opened JournalInvariant
  import opened Store
  import opened StoreRecovery

  /** An open call is left as it is, or has been closed as recovery closes it. */
  ghost predicate CallKept(t: ToolRecord, later: ToolRecord) {
    Closed(t) || later == t || (Closed(later) && RecoveredAs(t, later.terminal.value))
  }

  ghost predicate CallsKept(tools: seq<ToolRecord>, later: seq<ToolRecord>) {
    |tools| <= |later| && forall k :: 0 <= k < |tools| ==> CallKept(tools[k], later[k])
  }

  ghost predicate TurnsKept(turns: seq<TurnRecord>, later: seq<TurnRecord>) {
    |turns| <= |later| && forall i :: 0 <= i < |turns| ==> CallsKept(turns[i].tools, later[i].tools)
  }

  /** No call that was open has ended in any other way than recovery ends it: as indeterminate if it had
      started, as cancelled if not. */
  ghost predicate NeverFinished(j: Journal, later: Journal) {
    forall sid :: sid in j.sessions ==>
      sid in later.sessions && TurnsKept(j.sessions[sid].turns, later.sessions[sid].turns)
  }

  lemma NeverFinishedYet(j: Journal)
    ensures NeverFinished(j, j)
  {
  }

  lemma StillNeverFinished(a: Journal, b: Journal, c: Journal)
    requires NeverFinished(a, b) && NeverFinished(b, c) && Grows(b, c)
    ensures NeverFinished(a, c)
  {
    forall sid | sid in a.sessions ensures TurnsKept(a.sessions[sid].turns, c.sessions[sid].turns) {
      var s, t, u := a.sessions[sid].turns, b.sessions[sid].turns, c.sessions[sid].turns;
      assert TurnsKept(s, t) && TurnsKept(t, u) && TurnsGrow(t, u);
      hide NeverFinished, Grows;
      forall i | 0 <= i < |s| ensures CallsKept(s[i].tools, u[i].tools) {
        assert CallsKept(s[i].tools, t[i].tools) && CallsKept(t[i].tools, u[i].tools) && TurnGrows(t[i], u[i]);
        forall k | 0 <= k < |s[i].tools| ensures CallKept(s[i].tools[k], u[i].tools[k]) {
          assert CallKept(s[i].tools[k], t[i].tools[k]) && CallKept(t[i].tools[k], u[i].tools[k]);
          assert ToolGrows(t[i].tools[k], u[i].tools[k]);
        }
      }
    }
  }

  /** Where nothing is open, nothing can finish. */
  lemma QuietNeverFinishes(j: Journal, later: Journal)
    requires Quiet(j) && Grows(j, later)
    ensures NeverFinished(j, later)
  {
    forall sid | sid in j.sessions ensures TurnsKept(j.sessions[sid].turns, later.sessions[sid].turns) {
      var turns, next := j.sessions[sid].turns, later.sessions[sid].turns;
      assert TurnsGrow(turns, next);
      forall i | 0 <= i < |turns| ensures CallsKept(turns[i].tools, next[i].tools) {
        assert AllClosed(turns[i].tools) && TurnGrows(turns[i], next[i]);
      }
    }
  }

  // ---------------------------------------------------------------- one record of recovery

  /** A record that recovery writes for the turn that was running in `j`. */
  ghost predicate Recovery(j: Journal, sid: SessionId, record: JournalRecord)
    requires RunsLast(j, sid)
  {
    var turn := LastTurn(j, sid);
    || (record.RecoveryApplied? && record.sid == sid)
    || (&& record.ToolTerminal? && record.sid == sid && record.tid == turn.turnId
        && exists k :: 0 <= k < |turn.tools| && !Closed(turn.tools[k])
                       && record.result.callId == turn.tools[k].invocation.call.callId
                       && RecoveredAs(turn.tools[k], record.result))
  }

  ghost predicate ListedFrom(a: AbandonedTool, sid: SessionId, tid: TurnId, t: ToolRecord) {
    !Closed(t) && a == AbandonedTool(sid, tid, t.invocation.call.callId, t.invocation.call.name, t.startedAt.Some?)
  }

  lemma {:induction false} OpenToolsAre(sid: SessionId, tid: TurnId, tools: seq<ToolRecord>, n: nat) returns (k: nat)
    requires n < |OpenTools(sid, tid, tools)|
    ensures k < |tools| && ListedFrom(OpenTools(sid, tid, tools)[n], sid, tid, tools[k])
  {
    if !Closed(tools[0]) && n == 0 {
      k := 0;
    } else {
      k := OpenToolsAre(sid, tid, tools[1..], if Closed(tools[0]) then n else n - 1);
      k := k + 1;
    }
  }

  lemma RecordsRecover(ids: RecoveryIds, j: Journal, sid: SessionId, now: nat, n: nat)
    requires RunsLast(j, sid) && n < |RecoveryRecords(ids, sid, LastTurn(j, sid), now)|
    ensures Recovery(j, sid, RecoveryRecords(ids, sid, LastTurn(j, sid), now)[n].record)
  {
    var turn := LastTurn(j, sid);
    var open := OpenTools(sid, turn.turnId, turn.tools);
    if n < |open| {
      var k := OpenToolsAre(sid, turn.turnId, turn.tools, n);
      hide OpenTools;
      assert RecoveredAs(turn.tools[k], RecoveryResult(open[n]));
    }
  }

  lemma OneCallClosed(tools: seq<ToolRecord>, before: seq<ToolRecord>, k: nat, r: ToolResult, at: nat)
    requires CallsKept(tools, before) && k < |tools| && !Closed(before[k]) && RecoveredAs(tools[k], r)
    ensures CallsKept(tools, before[k := before[k].(terminal := Some(r), terminalAt := Some(at))])
  {
    assert CallKept(tools[k], before[k]);
  }

  lemma OneTurnKept(turns: seq<TurnRecord>, before: seq<TurnRecord>, i: nat, turn: TurnRecord)
    requires TurnsKept(turns, before) && i < |turns| && CallsKept(turns[i].tools, turn.tools)
    ensures TurnsKept(turns, before[i := turn])
  {
    hide CallsKept;
  }

  /** One more record of recovery. */
  lemma OneRecovers(first: Journal, j: Journal, sid: SessionId, record: JournalRecord)
    requires JournalOk(first) && JournalOk(j) && RunsLast(first, sid) && Grows(first, j) && NeverFinished(first, j)
    requires Recovery(first, sid, record) && ApplyRecord(j, record).Some?
    ensures NeverFinished(first, ApplyRecord(j, record).value)
  {
    hide JournalOk, ApplyRecord, TurnsKept;
    if record.RecoveryApplied? {
      EndKeepsTools(j, record);
      forall other | other in first.sessions
        ensures TurnsKept(first.sessions[other].turns, ApplyRecord(j, record).value.sessions[other].turns)
      {
        SameToolsKept(first.sessions[other].turns, j.sessions[other].turns,
                      ApplyRecord(j, record).value.sessions[other].turns);
      }
    } else {
      OneResult(first, j, sid, record);
    }
  }

  lemma OneResult(first: Journal, j: Journal, sid: SessionId, record: JournalRecord)
    requires JournalOk(j) && RunsLast(first, sid) && Grows(first, j) && NeverFinished(first, j)
    requires Recovery(first, sid, record) && record.ToolTerminal? && ApplyRecord(j, record).Some?
    ensures NeverFinished(first, ApplyRecord(j, record).value)
  {
    hide JournalOk, ApplyRecord, CallsKept, RecoveredAs;
    var turns, before := first.sessions[sid].turns, j.sessions[sid].turns;
    var i := |turns| - 1;
    var k :| 0 <= k < |turns[i].tools| && !Closed(turns[i].tools[k])
             && record.result.callId == turns[i].tools[k].invocation.call.callId
             && RecoveredAs(turns[i].tools[k], record.result);
    assert TurnsKept(turns, before) && SessionGrows(first.sessions[sid], j.sessions[sid]);
    assert TurnGrows(turns[i], before[i]) && ToolGrows(turns[i].tools[k], before[i].tools[k]);
    ResultCloses(j, sid, i, k, record);
    OneCallClosed(turns[i].tools, before[i].tools, k, record.result, record.at);
    var t := before[i].tools[k].(terminal := Some(record.result), terminalAt := Some(record.at));
    OneTurnKept(turns, before, i, before[i].(tools := before[i].tools[k := t]));
  }

  lemma SameToolsKept(turns: seq<TurnRecord>, before: seq<TurnRecord>, after: seq<TurnRecord>)
    requires TurnsKept(turns, before) && |before| == |after|
    requires forall i :: 0 <= i < |before| ==> after[i].tools == before[i].tools
    ensures TurnsKept(turns, after)
  {
    forall i | 0 <= i < |turns| ensures CallsKept(turns[i].tools, after[i].tools) {
      assert CallsKept(turns[i].tools, before[i].tools);
    }
  }

  /** Ending a turn leaves every call as it is. */
  lemma EndKeepsTools(j: Journal, record: JournalRecord)
    requires record.RecoveryApplied? && ApplyRecord(j, record).Some?
    ensures var later := ApplyRecord(j, record).value;
            later.sessions.Keys == j.sessions.Keys
            && forall sid :: sid in j.sessions ==>
                 && |later.sessions[sid].turns| == |j.sessions[sid].turns|
                 && forall i :: 0 <= i < |j.sessions[sid].turns| ==>
                      later.sessions[sid].turns[i].tools == j.sessions[sid].turns[i].tools
  {
  }

  /** A result closes exactly the call that it names, which was open. */
  lemma ResultCloses(j: Journal, sid: SessionId, i: nat, k: nat, record: JournalRecord)
    requires JournalOk(j) && sid in j.sessions && i < |j.sessions[sid].turns| && k < |j.sessions[sid].turns[i].tools|
    requires record.ToolTerminal? && record.sid == sid && record.tid == j.sessions[sid].turns[i].turnId
    requires record.result.callId == j.sessions[sid].turns[i].tools[k].invocation.call.callId
    requires ApplyRecord(j, record).Some?
    ensures var later := ApplyRecord(j, record).value;
            var turn := j.sessions[sid].turns[i];
            var t := turn.tools[k].(terminal := Some(record.result), terminalAt := Some(record.at));
            && !Closed(turn.tools[k]) && later.sessions.Keys == j.sessions.Keys
            && later.sessions[sid].turns == j.sessions[sid].turns[i := turn.(tools := turn.tools[k := t])]
            && forall other :: other in j.sessions && other != sid ==> later.sessions[other] == j.sessions[other]
  {
    var s := j.sessions[sid];
    assert SessionOk(sid, s) && TurnOk(sid, s.turns[i]);
    assert TurnIndex(s.turns, record.tid) == i;
    ToolIsFound(sid, s.turns[i], k);
  }

  // ---------------------------------------------------------------- however far it gets

  /** Whatever part of its records recovery has written, no open call has finished in any other way. */
  lemma {:induction false} RecoveryNeverFinishes(ids: RecoveryIds, log: seq<Envelope>, now: nat, records: seq<Envelope>)
    requires LiveLog(log) && LiveLog(log + records) && Replay(EMPTY, log).Some?
    requires RecoveryBegun(ids, Replay(EMPTY, log).value.journal, now, records)
    ensures Replay(EMPTY, log + records).Some?
    ensures NeverFinished(Replay(EMPTY, log).value.journal, Replay(EMPTY, log + records).value.journal)
  {
    hide LiveLog, JournalOk, Grows, NeverFinished, ApplyRecord, RecoveryRecords, Recovery;
    LiveLogOk(log);
    LiveLogOk(log + records);
    var first := Replay(EMPTY, log).value.journal;
    if records == [] {
      assert log + records == log;
      NeverFinishedYet(first);
    } else {
      var n := |records| - 1;
      var init, all := log + records[..n], log + records;
      assert all[..|init|] == init;
      LiveLogPrefix(all, |init|);
      RecoveryNeverFinishes(ids, log, now, records[..n]);
      LiveLogOk(init);
      var m := Replay(EMPTY, init).value;
      ReplayConcat(EMPTY, log, records[..n]);
      ReplayGrows(Replay(EMPTY, log).value, records[..n]);
      assert !NothingRuns(first);
      var sid :| RunsLast(first, sid);
      assert records[n] == RecoveryRecords(ids, sid, LastTurn(first, sid), now)[n];
      RecordsRecover(ids, first, sid, now, n);
      if records[n].recordId !in m.seen {
        OneRecovers(first, m.journal, sid, records[n].record);
      }
    }
  }
}
