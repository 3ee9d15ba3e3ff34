/** The durable store: commands are previewed on a copy, journaled, and only then adopted. */
module Store {
  import opened Protocol
  import opened Requests
  import opened Session
  import opened SessionMachines
  import opened ReplayLaws
  import opened JournalGrowth
  import opened JournalInvariant

  datatype StoreError = SessionFinalized | RecoveryFailed | RecordTooLarge | CommandRefused(code: RuntimeErrorCode)

  /** The longest line the journal file takes. */
  const MAX_RECORD_BYTES: nat := 1024 * 1024

  /** How many bytes a record takes as a line of the journal file. */
  type Sizes = Envelope -> nat

  predicate Fits(size: Sizes, env: Envelope) { size(env) <= MAX_RECORD_BYTES }

  predicate LogFits(size: Sizes, log: seq<Envelope>) {
    forall i :: 0 <= i < |log| ==> Fits(size, log[i])
  }

  function RecordSession(record: JournalRecord): SessionId {
    if record.SessionCreated? then record.session.sessionId else record.sid
  }

  /** Logs in which every record was live when it was written; prefixes of such logs are such logs. */
  ghost predicate LiveLog(log: seq<Envelope>) {
    log == [] ||
    var before := Replay(EMPTY, log[..|log| - 1]);
    var last := log[|log| - 1];
    && LiveLog(log[..|log| - 1]) && before.Some?
    && last.recordId !in before.value.seen
    && Live(before.value.journal, last.record)
    && ReplayOne(before.value, last).Some?
  }

  lemma {:induction false} LiveLogOk(log: seq<Envelope>)
    requires LiveLog(log)
    ensures Replay(EMPTY, log).Some? && JournalOk(Replay(EMPTY, log).value.journal)
  {
    if log != [] {
      LiveLogOk(log[..|log| - 1]);
      RecordKeepsOk(Replay(EMPTY, log[..|log| - 1]).value.journal, log[|log| - 1].record);
    }
  }

  /** Every crash point of a live log is a live log. */
  lemma {:induction false} LiveLogPrefix(log: seq<Envelope>, n: nat)
    requires LiveLog(log) && n <= |log|
    ensures LiveLog(log[..n])
  {
    if n == |log| {
      assert log[..n] == log;
    } else {
      LiveLogPrefix(log[..|log| - 1], n);
      assert log[..|log| - 1][..n] == log[..n];
    }
  }

  /** Over any longer live log a compaction pointer stays, or moves to a strictly later turn. */
  lemma {:induction false} PointersMove(log: seq<Envelope>, n: nat, sid: SessionId)
    requires LiveLog(log) && n <= |log|
    requires Replay(EMPTY, log[..n]).Some? && sid in Replay(EMPTY, log[..n]).value.journal.sessions
    ensures Replay(EMPTY, log).Some? && sid in Replay(EMPTY, log).value.journal.sessions
    ensures PointerMoves(Replay(EMPTY, log[..n]).value.journal.sessions[sid],
                         Replay(EMPTY, log).value.journal.sessions[sid])
  {
    hide JournalOk, PointerMoves, SessionGrows, SessionOk, ApplyRecord, Live;
    LiveLogOk(log);
    LiveLogPrefix(log, n);
    LiveLogOk(log[..n]);
    var first := Replay(EMPTY, log[..n]).value.journal;
    if n == |log| {
      assert log[..n] == log;
      SameSession(first, sid);
    } else {
      var init := log[..|log| - 1];
      assert init[..n] == log[..n];
      PointersMove(init, n, sid);
      var before := Replay(EMPTY, init).value.journal;
      LiveLogOk(init);
      RecordMovesPointers(before, log[|log| - 1].record, sid);
      ReplayConcat(EMPTY, log[..n], log[n..]);
      assert log == log[..n] + log[n..];
      ReplayGrows(Replay(EMPTY, log[..n]).value, log[n..]);
      var after := Replay(EMPTY, log).value.journal;
      SessionsOk(first, after, sid);
      PointerMovesOn(sid, first.sessions[sid], before.sessions[sid], after.sessions[sid]);
    }
  }

  lemma SameSession(j: Journal, sid: SessionId)
    requires JournalOk(j) && sid in j.sessions
    ensures PointerMoves(j.sessions[sid], j.sessions[sid])
  {
  }

  /** A command journals at most one record, and that record is live. */
  lemma PersistedIsLive(m: Machine, c: Command)
    requires JournalOk(m.journal) && !c.ReplayRecord? && Step(m, c).1.Ok?
    ensures var p := Persisted(Step(m, c).1);
            p == [] || (|p| == 1 && Live(m.journal, p[0].record)
                        && (p[0].recordId in m.seen <==> ReusesId(m, c)))
  {
    if c.Continue? || c.Retry? {
      StartPersists(m, c);
    } else if c.ListSessions? {
      NoneAfter(Step(m, c).1.value);
    } else {
      JournalCommandPersists(m, c);
    }
  }

  lemma JournalCommandPersists(m: Machine, c: Command)
    requires Journals(c) && JournalCommand(m, c).1.Ok?
    ensures var p := Persisted(JournalCommand(m, c).1);
            p == [] || (|p| == 1 && p[0].recordId !in m.seen && Live(m.journal, p[0].record))
  {
    hide ApplyRecord, CommandRecord, Live;
    var record := CommandRecord(m.journal, c);
    if record.Ok? {
      CommandRecordIsLive(m.journal, c);
      var env := Envelope(c.recordId, record.value);
      var after := AfterPersist(c, record.value);
      PersistedPrefix(env, after);
      if c.Interrupt? {
        InterruptRecord(m.journal, c);
        var last := [Finalized(record.value.receipt)];
        PersistedPrefix(env, after + last);
        assert [Effect.Persist(env)] + (after + last) == ([Effect.Persist(env)] + after) + last;
        assert [] + last == last;
        NoneAfter(last);
      }
    }
  }

  lemma StartPersists(m: Machine, c: Command)
    requires JournalOk(m.journal) && (c.Continue? || c.Retry?) && Step(m, c).1.Ok?
    ensures var p := Persisted(Step(m, c).1);
            |p| == 1 && p[0].recordId == c.recordId && Live(m.journal, p[0].record) && AppliesStart(m, c)
  {
    hide ApplyRecord, ValidRequest;
    var t := TurnToStart(m.journal, c).value;
    var s := StartGuards(m.journal, t.turnId, t.requestId, t.userMessage.content).value;
    assert SessionOk(m.journal.active.value, s);
    var env := Envelope(c.recordId, TurnStarted(s.sessionId, s.binding, t));
    PersistedPrefix(env, [Step(m, c).1.value[1]]);
  }

  /** A request names its tool by a valid code, as every other tool record relies on. */
  ghost predicate NamesTool(record: JournalRecord) {
    record.ToolRequested? ==> ValidCode(record.invocation.call.name)
  }

  ghost predicate NamesTools(log: seq<Envelope>) {
    forall i :: 0 <= i < |log| ==> NamesTool(log[i].record)
  }

  /** What the driver writes: under an id that it issued, with valid tool names. */
  ghost predicate Driven(env: Envelope) { env.recordId >= 0 && NamesTool(env.record) }

  /** The log has only been appended to, by the driver. */
  ghost predicate Extends(before: seq<Envelope>, after: seq<Envelope>) {
    before <= after && forall i :: |before| <= i < |after| ==> Driven(after[i])
  }

  lemma ExtendsSame(log: seq<Envelope>)
    ensures Extends(log, log)
  {
  }

  lemma ExtendsPrefix(before: seq<Envelope>, after: seq<Envelope>)
    requires Extends(before, after)
    ensures before <= after
  {
  }

  lemma ExtendsOne(log: seq<Envelope>, env: Envelope)
    requires Driven(env)
    ensures Extends(log, log + [env])
  {
  }

  lemma ExtendsTrans(a: seq<Envelope>, b: seq<Envelope>, c: seq<Envelope>)
    requires Extends(a, b) && Extends(b, c)
    ensures Extends(a, c)
  {
    forall i | |a| <= i < |c| ensures Driven(c[i]) {
      if i < |b| {
        assert c[i] == b[i];
      }
    }
  }

  class RuntimeStore {
    var journal: seq<Envelope>
    var machine: SessionMachine
    var recordsById: map<RecordId, Envelope>
    const finalized: set<SessionId>
    const size: Sizes

    /** The machine is what the journal replays to, the index is the machine's memory, and every
        journaled record fits a line. */
    ghost predicate Valid()
      reads this, machine
    {
      && Replay(EMPTY, journal) == Some(machine.View())
      && recordsById == machine.seenRecords
      && LogFits(size, journal)
    }

    constructor (log: seq<Envelope>, replayed: SessionMachine, finalized: set<SessionId>, size: Sizes)
      requires Replay(EMPTY, log) == Some(replayed.View()) && LogFits(size, log)
      ensures Valid() && journal == log && machine == replayed && this.finalized == finalized && this.size == size
    {
      journal, machine, recordsById := log, replayed, replayed.seenRecords;
      this.finalized, this.size := finalized, size;
    }

    /** Appends one record: refused, already known, or journaled and adopted. */
    method Append(env: Envelope) returns (r: Result<(), StoreError>)
      requires Valid()
      modifies this
      ensures Valid()
      ensures var before := old(machine.View());
              if RecordSession(env.record) in finalized then r == Err(SessionFinalized)
              else if ReplayOne(before, env).None? then r == Err(RecoveryFailed)
              else r == if env.recordId in before.seen || Fits(size, env) then Ok(()) else Err(RecordTooLarge)
      ensures journal == if r.Ok? && env.recordId !in old(recordsById) then old(journal) + [env] else old(journal)
      ensures r.Err? ==> machine == old(machine)
      ensures machine == old(machine) || fresh(machine)
      ensures old(machine).View() == old(machine.View())
      ensures LiveLog(old(journal)) && Live(old(machine.Project()), env.record) ==> LiveLog(journal)
    {
      hide ApplyRecord, Live;
      if RecordSession(env.record) in finalized {
        return Err(SessionFinalized);
      }
      if env.recordId in recordsById {
        return if recordsById[env.recordId] == env then Ok(()) else Err(RecoveryFailed);
      }
      var next := new SessionMachine.Clone(machine);
      var reply := next.ReplayEnvelope(env);
      if reply.Err? {
        return Err(RecoveryFailed);
      }
      if !Fits(size, env) {
        return Err(RecordTooLarge);
      }
      assert (journal + [env])[..|journal|] == journal;
      journal := journal + [env];
      recordsById := recordsById[env.recordId := env];
      machine := next;
      return Ok(());
    }

    /** Runs a command on a copy and appends what it persists. A refused command, and a turn start
        whose request is refused after it was applied, leaves the store as it was. */
    method ApplyCommand(c: Command) returns (r: Result<seq<Effect>, StoreError>)
      requires Valid() && LiveLog(journal) && !c.ReplayRecord?
      modifies this
      ensures Valid() && LiveLog(journal)
      ensures machine == old(machine) || fresh(machine)
      ensures old(machine).View() == old(machine.View())
      ensures var (m', reply) := Step(old(machine.View()), c);
              && (reply.Err? ==> r == Err(CommandRefused(reply.error)))
              && (r.Ok? ==> reply == Ok(r.value))
              && (r.Err? ==> journal == old(journal) && machine == old(machine))
              && (r.Ok? ==> forall e :: e in Persisted(reply) ==> RecordSession(e.record) !in finalized)
              && (reply.Ok? && r.Err? && r.error == RecordTooLarge ==>
                    exists e :: e in Persisted(reply) && RecordSession(e.record) !in finalized && !Fits(size, e))
              && (reply.Ok? && r.Err? && r.error == SessionFinalized ==>
                    exists e :: e in Persisted(reply) && RecordSession(e.record) in finalized)
              && (reply.Ok? && r.Err? && r.error != RecordTooLarge && r.error != SessionFinalized ==>
                    r.error == RecoveryFailed && ReusesId(old(machine.View()), c))
              && ((r.Ok? && !ReusesId(old(machine.View()), c))
                  ==> machine.View() == m' && journal == old(journal) + Persisted(reply))
              && ((reply.Ok? && !ReusesId(old(machine.View()), c)) ==>
                    (r.Ok? <==> forall e :: e in Persisted(reply) ==>
                                  RecordSession(e.record) !in finalized && Fits(size, e)))
    {
      hide Step, Live, ReplayOne, Diverges, ReusesId, LiveLog;
      ghost var before := machine.View();
      var preview := new SessionMachine.Clone(machine);
      var reply := preview.Execute(c);
      if reply.Err? {
        return Err(CommandRefused(reply.error));
      }
      LiveLogOk(journal);
      PersistedIsLive(before, c);
      if !ReusesId(before, c) {
        AppliedUnlessDiverged(before, c);
      }
      var persisted := Persisted(reply);
      if persisted == [] {
        assert journal == journal + [];
        ReplaySingle(before, Envelope(0, TraceStored(0, TraceEntry(0, 0, map[]))));
        return Ok(reply.value);
      }
      assert persisted == [persisted[0]];
      ReplaySingle(before, persisted[0]);
      var done := Append(persisted[0]);
      if done.Err? {
        return Err(done.error);
      }
      ReplaySnoc(EMPTY, old(journal), persisted[0]);
      return Ok(reply.value);
    }
  }

  lemma ReplaySnoc(m: Machine, log: seq<Envelope>, env: Envelope)
    requires Replay(m, log).Some?
    ensures Replay(m, log + [env]) == ReplayOne(Replay(m, log).value, env)
  {
    assert (log + [env])[..|log|] == log;
  }

  lemma AppliedUnlessDiverged(m: Machine, c: Command)
    requires !c.ReplayRecord? && Step(m, c).1.Ok?
    requires !ReusesId(m, c)
    ensures Replay(m, Persisted(Step(m, c).1)) == Some(Step(m, c).0)
  {
    LiveEqualsReplay(m, c);
  }
}
