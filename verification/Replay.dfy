/** Logs and live commands tell the same story. */
module ReplayLaws {
  import opened Protocol
  import opened Requests
  import opened Session

  /** Replaying two logs in a row is replaying their concatenation. */
  lemma {:induction false} ReplayConcat(m: Machine, first: seq<Envelope>, second: seq<Envelope>)
    ensures Replay(m, first + second) ==
            (var mid := Replay(m, first); if mid.None? then None else Replay(mid.value, second))
  {
    var log := first + second;
    if second == [] {
      assert log == first;
    } else {
      var init := second[..|second| - 1];
      assert log[..|log| - 1] == first + init;
      ReplayConcat(m, first, init);
    }
  }

  /** A replayed log is remembered record by record, and nothing seen is forgotten. */
  lemma {:induction false} ReplayRemembers(m: Machine, log: seq<Envelope>)
    requires Replay(m, log).Some?
    ensures var seen := Replay(m, log).value.seen;
            && (forall id :: id in m.seen ==> id in seen && seen[id] == m.seen[id])
            && (forall e :: e in log ==> e.recordId in seen && seen[e.recordId] == e)
  {
    if log != [] {
      ReplayRemembers(m, log[..|log| - 1]);
      assert log == log[..|log| - 1] + [log[|log| - 1]];
    }
  }

  /** Repeating, anywhere later, a record that the log already holds changes nothing. */
  lemma RepeatedRecordIsIdle(m: Machine, first: seq<Envelope>, again: Envelope, second: seq<Envelope>)
    requires again in first
    ensures Replay(m, first + [again] + second) == Replay(m, first + second)
  {
    ReplayConcat(m, first + [again], second);
    ReplayConcat(m, first, second);
    assert (first + [again])[..|first|] == first;
    if Replay(m, first).Some? {
      ReplayRemembers(m, first);
    }
  }

  /** A log replayed twice over gives the state of one replay. */
  lemma {:induction false} DoubledLog(log: seq<Envelope>, n: nat)
    requires n <= |log| && Replay(EMPTY, log).Some?
    ensures Replay(EMPTY, log + log[..n]) == Replay(EMPTY, log)
  {
    if n == 0 {
      assert log + log[..0] == log;
    } else {
      DoubledLog(log, n - 1);
      var doubled := log + log[..n];
      assert doubled[..|doubled| - 1] == log + log[..n - 1];
      assert doubled[|doubled| - 1] == log[n - 1];
      ReplayRemembers(EMPTY, log);
    }
  }

  // ---------------------------------------------------------------- live commands

  /** The command gets past the guards of a turn start, so its record is applied. */
  ghost predicate AppliesStart(m: Machine, c: Command) {
    (c.Continue? || c.Retry?) &&
    var turn := TurnToStart(m.journal, c);
    turn.Ok? &&
    var s := StartGuards(m.journal, turn.value.turnId, turn.value.requestId, turn.value.userMessage.content);
    s.Ok? && ApplyRecord(m.journal, TurnStarted(s.value.sessionId, s.value.binding, turn.value)).Some?
  }

  /** The model request that an applied turn start leads to can be built and is accepted. */
  ghost predicate RequestAccepted(m: Machine, c: Command)
    requires AppliesStart(m, c)
  {
    var turn := TurnToStart(m.journal, c).value;
    var s := StartGuards(m.journal, turn.turnId, turn.requestId, turn.userMessage.content).value;
    var j := ApplyRecord(m.journal, TurnStarted(s.sessionId, s.binding, turn)).value;
    ActiveSession(j).Some? && ValidRequest(RequestFor(ActiveSession(j).value, turn, s.binding, c.maxOutputTokens))
  }

  /** An applied turn start whose record id is already taken. */
  ghost predicate ReusesId(m: Machine, c: Command) {
    AppliesStart(m, c) && c.recordId in m.seen
  }

  /** The one family of commands after which the live state is ahead of its journal: an applied
      turn start that reuses a record id or whose request is refused. */
  ghost predicate Diverges(m: Machine, c: Command) {
    ReusesId(m, c) || (AppliesStart(m, c) && !RequestAccepted(m, c))
  }

  lemma StartAddsTurn(j: Journal, sid: SessionId, binding: ModelBinding, turn: TurnRecord)
    requires Start(j, sid, binding, turn).Some?
    ensures Start(j, sid, binding, turn).value != j
  {
    var j' := Start(j, sid, binding, turn).value;
    assert |j'.sessions[sid].turns| == |j.sessions[sid].turns| + 1;
  }

  lemma ReplaySingle(m: Machine, env: Envelope)
    ensures Replay(m, []) == Some(m) && Replay(m, [env]) == ReplayOne(m, env)
  {
    assert [env][..0] == [];
  }

  lemma PersistedPrefix(env: Envelope, after: seq<Effect>)
    requires forall i :: 0 <= i < |after| ==> !after[i].Persist?
    ensures PersistedIn([Effect.Persist(env)] + after) == [env]
    ensures PersistedIn(after) == []
  {
    NoneAfter(after);
    assert ([Effect.Persist(env)] + after)[1..] == after;
  }

  lemma {:induction false} NoneAfter(effects: seq<Effect>)
    requires forall i :: 0 <= i < |effects| ==> !effects[i].Persist?
    ensures PersistedIn(effects) == []
  {
    if effects != [] {
      NoneAfter(effects[1..]);
    }
  }

  lemma JournalledEqualsReplay(m: Machine, c: Command)
    requires Journals(c)
    ensures Replay(m, Persisted(JournalCommand(m, c).1)) == Some(JournalCommand(m, c).0)
  {
    var record := CommandRecord(m.journal, c);
    if record.Ok? {
      var env := Envelope(c.recordId, record.value);
      var after := AfterPersist(c, record.value);
      ReplaySingle(m, env);
      PersistedPrefix(env, after);
      if c.Interrupt? {
        var last := [Finalized(record.value.receipt)];
        PersistedPrefix(env, after + last);
        assert [Effect.Persist(env)] + (after + last) == ([Effect.Persist(env)] + after) + last;
        assert [] + last == last;
        NoneAfter(last);
      }
    }
  }

  lemma ReplayFresh(m: Machine, env: Envelope)
    ensures ReplayOne(m, env)
            == if env.recordId in m.seen then (if m.seen[env.recordId] == env then Some(m) else None)
               else if ApplyRecord(m.journal, env.record).None? then None
               else Some(Machine(ApplyRecord(m.journal, env.record).value, m.seen[env.recordId := env]))
  {
    hide ApplyRecord;
  }

  lemma StartEqualsReplay(m: Machine, c: Command)
    requires c.Continue? || c.Retry?
    ensures Replay(m, Persisted(Step(m, c).1)) == Some(Step(m, c).0) <==> !Diverges(m, c)
  {
    hide ValidRequest, RequestFor, IsBlank, ActiveSession, Replay, PersistedIn, ReplayOne;
    ReplaySingle(m, Envelope(c.recordId, TraceStored(0, TraceEntry(0, 0, map[]))));
    NoneAfter([]);
    if AppliesStart(m, c) {
      var turn := TurnToStart(m.journal, c).value;
      var s := StartGuards(m.journal, turn.turnId, turn.requestId, turn.userMessage.content).value;
      var env := Envelope(c.recordId, TurnStarted(s.sessionId, s.binding, turn));
      StartAddsTurn(m.journal, s.sessionId, s.binding, turn);
      ReplaySingle(m, env);
      ReplayFresh(m, env);
      if RequestAccepted(m, c) {
        var effects := Step(m, c).1.value;
        assert effects == [Effect.Persist(env)] + [effects[1]];
        PersistedPrefix(env, [effects[1]]);
      }
    }
  }

  /** What a command journals replays to the state it left, exactly when it does not diverge. */
  lemma LiveEqualsReplay(m: Machine, c: Command)
    requires !c.ReplayRecord?
    ensures Replay(m, Persisted(Step(m, c).1)) == Some(Step(m, c).0) <==> !Diverges(m, c)
  {
    if c.Continue? || c.Retry? {
      StartEqualsReplay(m, c);
    } else if c.ListSessions? {
      NoneAfter(Step(m, c).1.value);
    } else {
      JournalledEqualsReplay(m, c);
    }
  }

  // ---------------------------------------------------------------- whole runs

  ghost function Run(m: Machine, commands: seq<Command>): Machine {
    if commands == [] then m else Step(Run(m, commands[..|commands| - 1]), commands[|commands| - 1]).0
  }

  /** Everything a run asks to journal, in order. */
  ghost function RunLog(m: Machine, commands: seq<Command>): seq<Envelope> {
    if commands == [] then []
    else
      var before := commands[..|commands| - 1];
      RunLog(m, before) + Persisted(Step(Run(m, before), commands[|commands| - 1]).1)
  }

  ghost predicate NeverDiverges(m: Machine, commands: seq<Command>) {
    commands == [] ||
    var before, last := commands[..|commands| - 1], commands[|commands| - 1];
    NeverDiverges(m, before) && !last.ReplayRecord? && !Diverges(Run(m, before), last)
  }

  lemma ExtendLog(log: seq<Envelope>, m: Machine, c: Command)
    requires Replay(EMPTY, log) == Some(m) && !c.ReplayRecord? && !Diverges(m, c)
    ensures Replay(EMPTY, log + Persisted(Step(m, c).1)) == Some(Step(m, c).0)
  {
    LiveEqualsReplay(m, c);
    ReplayConcat(EMPTY, log, Persisted(Step(m, c).1));
  }

  /** From any replayed log, a run of commands ends in the state that the longer log replays to. */
  lemma {:induction false} RunEqualsReplay(log: seq<Envelope>, m: Machine, commands: seq<Command>)
    requires Replay(EMPTY, log) == Some(m) && NeverDiverges(m, commands)
    ensures Replay(EMPTY, log + RunLog(m, commands)) == Some(Run(m, commands))
  {
    hide Step, Diverges, Replay;
    if commands == [] {
      assert log + [] == log;
    } else {
      var before, last := commands[..|commands| - 1], commands[|commands| - 1];
      RunEqualsReplay(log, m, before);
      var mid := Run(m, before);
      ExtendLog(log + RunLog(m, before), mid, last);
      assert log + RunLog(m, commands) == (log + RunLog(m, before)) + Persisted(Step(mid, last).1);
    }
  }

  /** A log of one record: a session was created. */
  function OneSession(sid: SessionId, binding: ModelBinding): seq<Envelope> {
    [Envelope(1, SessionCreated(NewSession(sid, binding, 1)))]
  }

  lemma SessionReplays(sid: SessionId, binding: ModelBinding)
    ensures Replay(EMPTY, OneSession(sid, binding))
            == Some(Machine(Journal(map[sid := NewSession(sid, binding, 1)], Some(sid)),
                            map[1 := OneSession(sid, binding)[0]]))
  {
    ReplaySingle(EMPTY, OneSession(sid, binding)[0]);
  }

  /** The first turn of that session gets past the guards. */
  lemma FirstTurnApplies(sid: SessionId, binding: ModelBinding, recordId: RecordId, tokens: nat)
    ensures Replay(EMPTY, OneSession(sid, binding)).Some?
    ensures AppliesStart(Replay(EMPTY, OneSession(sid, binding)).value, Continue(recordId, 3, 4, "q", tokens, 2))
  {
    SessionReplays(sid, binding);
    var m := Replay(EMPTY, OneSession(sid, binding)).value;
    assert !IsWhitespace("q"[0]);
    assert StartGuards(m.journal, 3, 4, "q") == Ok(NewSession(sid, binding, 1));
  }

  /** Divergence is real: with no output tokens allowed, the turn starts but nothing is journaled. */
  lemma RefusedRequestDiverges(sid: SessionId, binding: ModelBinding)
    ensures Replay(EMPTY, OneSession(sid, binding)).Some?
    ensures var m, c := Replay(EMPTY, OneSession(sid, binding)).value, Continue(7, 3, 4, "q", 0, 2);
            Step(m, c).1 == Err(Configuration) && Step(m, c).0 != m && c.recordId !in m.seen
  {
    SessionReplays(sid, binding);
    FirstTurnApplies(sid, binding, 7, 0);
    var m := Replay(EMPTY, OneSession(sid, binding)).value;
    StartAddsTurn(m.journal, sid, binding, NewTurn(3, 4, 2, None, "q"));
  }

  /** And so is the other kind: a turn start under a record id that is taken leaves a state that its own
      record, appended to the log, does not replay to. */
  lemma ReusedIdDiverges(sid: SessionId, binding: ModelBinding, tokens: nat)
    ensures Replay(EMPTY, OneSession(sid, binding)).Some?
    ensures var m, c := Replay(EMPTY, OneSession(sid, binding)).value, Continue(1, 3, 4, "q", tokens, 2);
            ReusesId(m, c) && Replay(m, Persisted(Step(m, c).1)) != Some(Step(m, c).0)
  {
    SessionReplays(sid, binding);
    FirstTurnApplies(sid, binding, 1, tokens);
    var m, c := Replay(EMPTY, OneSession(sid, binding)).value, Continue(1, 3, 4, "q", tokens, 2);
    LiveEqualsReplay(m, c);
  }
}
