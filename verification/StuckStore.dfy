/** Stores that can never be opened again: a draft that has outgrown the journal, or a tool without a name. */
module StuckStore {
  import opened Protocol
  import opened Session
  import opened JournalInvariant
  import opened ReplayLaws
  import opened Store
  import opened StoreRecovery
  import opened AgentLoop
  import opened CrashSafety

  /** A record that carries a message takes at least its text. */
  ghost predicate CountsText(size: Sizes) {
    && (forall id, sid, receipt, m, at :: size(Envelope(id, RecoveryApplied(sid, receipt, Some(m), at))) >= |m.content|)
    && (forall id, sid, receipt, m, at :: size(Envelope(id, TurnTerminal(sid, receipt, Some(m), at))) >= |m.content|)
  }

  /** A turn runs whose draft is longer than any line of the journal. */
  ghost predicate Overgrown(j: Journal, sid: SessionId) {
    && RunsLast(j, sid)
    && var draft := LastTurn(j, sid).assistantMessage;
    draft.Some? && |draft.value.content| > MAX_RECORD_BYTES
  }

  /** Such a turn can be ended by nobody: not by the driver, whatever the receipt, and not by recovery. */
  lemma OvergrownCannotEnd(size: Sizes, ids: RecoveryIds, log: seq<Envelope>, sid: SessionId, now: nat)
    requires CountsText(size) && Replay(EMPTY, log).Some? && Overgrown(Replay(EMPTY, log).value.journal, sid)
    ensures !RecoveryFits(size, ids, log, now)
    ensures var draft := LastTurn(Replay(EMPTY, log).value.journal, sid).assistantMessage.value.content;
            forall id, receipt :: !Fits(size, Envelope(id, FinalRecord(sid, receipt, draft, now)))
  {
    hide Replay;
    var turn := LastTurn(Replay(EMPTY, log).value.journal, sid);
    var records := RecoveryRecords(ids, sid, turn, now);
    assert !Fits(size, TurnRecovery(ids, sid, turn, now));
    assert records[|records| - 1] == TurnRecovery(ids, sid, turn, now);
  }

  lemma ResultKeepsDraft(j: Journal, record: JournalRecord, sid: SessionId)
    requires Overgrown(j, sid) && record.ToolTerminal? && ApplyRecord(j, record).Some?
    ensures Overgrown(ApplyRecord(j, record).value, sid)
  {
  }

  lemma {:induction false} ResultsKeepDraft(m: Machine, records: seq<Envelope>, sid: SessionId)
    requires Overgrown(m.journal, sid) && Replay(m, records).Some?
    requires forall i :: 0 <= i < |records| ==> records[i].record.ToolTerminal?
    ensures Overgrown(Replay(m, records).value.journal, sid)
  {
    hide ApplyRecord, Overgrown;
    if records != [] {
      var n := |records| - 1;
      ResultsKeepDraft(m, records[..n], sid);
      var before := Replay(m, records[..n]).value;
      if records[n].recordId !in before.seen {
        ResultKeepsDraft(before.journal, records[n].record, sid);
      }
    }
  }

  /** What a failing restart still writes leaves the draft as it is. */
  lemma StaysOvergrown(size: Sizes, ids: RecoveryIds, log: seq<Envelope>, left: seq<Envelope>, sid: SessionId, now: nat)
    requires CountsText(size) && LiveLog(left) && LogFits(size, left) && log <= left
    requires Replay(EMPTY, log).Some? && Overgrown(Replay(EMPTY, log).value.journal, sid)
    requires RecoveryBegun(ids, Replay(EMPTY, log).value.journal, now, left[|log|..])
    ensures Replay(EMPTY, left).Some? && Overgrown(Replay(EMPTY, left).value.journal, sid)
  {
    hide LiveLog, Replay;
    LiveLogOk(left);
    var m := Replay(EMPTY, log).value;
    var turn := LastTurn(m.journal, sid);
    var written := left[|log|..];
    var records := RecoveryRecords(ids, sid, turn, now);
    assert written <= records;
    assert !Fits(size, TurnRecovery(ids, sid, turn, now));
    forall i | 0 <= i < |written| ensures written[i].record.ToolTerminal? {
      assert written[i] == left[|log| + i] && written[i] == records[i];
    }
    assert left == log + written;
    ReplayConcat(EMPTY, log, written);
    ResultsKeepDraft(m, written, sid);
  }

  /** However often it is tried, a store with such a draft is never opened again. */
  method KeepRestarting(log: seq<Envelope>, ghost sid: SessionId, clocks: seq<nat>, finalized: set<SessionId>,
                        ids: RecoveryIds, size: Sizes)
    returns (reopened: bool, left: seq<Envelope>)
    requires Sane(size, ids, log) && Derived(ids) && CountsText(size)
    requires Replay(EMPTY, log).Some? && Overgrown(Replay(EMPTY, log).value.journal, sid)
    ensures !reopened && Sane(size, ids, left) && log <= left
    ensures Replay(EMPTY, left).Some? && Overgrown(Replay(EMPTY, left).value.journal, sid)
  {
    hide Replay, LiveLog, NamesTools, AllWritten, LogFits, Derived, CountsText, Overgrown, RecoveryFits, RecoveryBegun;
    left := log;
    for i := 0 to |clocks|
      invariant Sane(size, ids, left) && log <= left
      invariant Replay(EMPTY, left).Some? && Overgrown(Replay(EMPTY, left).value.journal, sid)
    {
      OvergrownCannotEnd(size, ids, left, sid, clocks[i]);
      ghost var found := left;
      var store;
      store, left := Restart(left, finalized, ids, clocks[i], size);
      if store.Some? {
        return true, left;
      }
      StaysOvergrown(size, ids, found, left, sid, clocks[i]);
    }
    reopened := false;
  }

  // ---------------------------------------------------------------- it happens

  /** A plain way to count: the text, and a fixed amount for everything else. */
  function PlainSize(env: Envelope): nat {
    1_000 + match env.record
            case TurnDelta(_, _, delta, _) => |delta|
            case TurnTerminal(_, _, message, _) => if message.Some? then |message.value.content| else 0
            case RecoveryApplied(_, _, message, _) => if message.Some? then |message.value.content| else 0
            case TurnStarted(_, _, turn) => |turn.userMessage.content|
            case _ => 0
  }

  function Letters(n: nat): (s: string) ensures |s| == n {
    seq(n, _ => 'a')
  }

  const BINDING: ModelBinding := ModelBinding(1, 1, true)

  /** A session and a turn. */
  function OneTurn(): seq<Envelope> {
    [Envelope(0, SessionCreated(NewSession(1, BINDING, 0)))]
    + [Envelope(1, TurnStarted(1, BINDING, NewTurn(1, 1, 0, None, "go")))]
  }

  /** And `n` deltas of 400,000 letters each. */
  function Deltas(n: nat): seq<Envelope> {
    if n == 0 then OneTurn() else Deltas(n - 1) + [Envelope(n + 1, TurnDelta(1, 1, Letters(400_000), 0))]
  }

  ghost predicate Drafted(log: seq<Envelope>, n: nat) {
    && LiveLog(log) && Replay(EMPTY, log).Some?
    && var m := Replay(EMPTY, log).value;
    && RunsLast(m.journal, 1) && LastTurn(m.journal, 1).turnId == 1
    && (forall id :: id in m.seen ==> id < n + 2)
    && var message := LastTurn(m.journal, 1).assistantMessage;
    |if message.Some? then message.value.content else ""| == 400_000 * n
  }

  lemma TurnIsDrafted()
    ensures Drafted(OneTurn(), 0)
  {
    var created := Envelope(0, SessionCreated(NewSession(1, BINDING, 0)));
    var started := Envelope(1, TurnStarted(1, BINDING, NewTurn(1, 1, 0, None, "go")));
    ExtendLive([], EMPTY, created);
    assert [] + [created] == [created];
    ExtendLive([created], ReplayOne(EMPTY, created).value, started);
  }

  lemma DeltaIsDrafted(log: seq<Envelope>, n: nat, delta: string)
    requires Drafted(log, n) && |delta| == 400_000
    ensures Drafted(log + [Envelope(n + 2, TurnDelta(1, 1, delta, 0))], n + 1)
  {
    hide LiveLog, JournalOk, EditSession, EditTurn, Replay, WithLast;
    var m := Replay(EMPTY, log).value;
    var turn := LastTurn(m.journal, 1);
    var edited := turn.(assistantMessage := Some(WithDelta(turn.assistantMessage, delta)));
    var env := Envelope(n + 2, TurnDelta(1, 1, delta, 0));
    LiveLogOk(log);
    DeltaEdits(turn, delta);
    EditLast(m.journal, 1, AppendDelta(delta), 0);
    ExtendLive(log, m, env);
    WithLastTwice(m.journal, 1, edited, 0, edited, 0);
    WithLastRuns(m.journal, 1, edited, 0);
  }

  lemma WithLastRuns(j: Journal, sid: SessionId, turn: TurnRecord, at: nat)
    requires sid in j.sessions && j.sessions[sid].turns != [] && turn.status == Running
    ensures RunsLast(WithLast(j, sid, turn, at), sid)
  {
  }

  lemma {:induction false} DeltasAreDrafted(n: nat)
    ensures Drafted(Deltas(n), n)
  {
    hide Drafted;
    if n == 0 {
      TurnIsDrafted();
    } else {
      DeltasAreDrafted(n - 1);
      DeltaIsDrafted(Deltas(n - 1), n - 1, Letters(400_000));
    }
  }

  lemma DeltaEdits(turn: TurnRecord, delta: string)
    requires turn.status == Running
    ensures EditTurn(turn, AppendDelta(delta))
              == Some(turn.(assistantMessage := Some(WithDelta(turn.assistantMessage, delta))))
  {
  }

  lemma {:induction false} DeltasFit(ids: RecoveryIds, n: nat)
    ensures LogFits(PlainSize, Deltas(n)) && NamesTools(Deltas(n)) && AllWritten(ids, Deltas(n))
  {
    if n > 0 {
      DeltasFit(ids, n - 1);
    }
  }

  /** After three such deltas every record of the log fits, and yet its store can never be opened again. */
  lemma ThreeDeltasAreTooMuch(ids: RecoveryIds)
    ensures Sane(PlainSize, ids, Deltas(3)) && CountsText(PlainSize)
    ensures Replay(EMPTY, Deltas(3)).Some? && Overgrown(Replay(EMPTY, Deltas(3)).value.journal, 1)
    ensures forall now :: !RecoveryFits(PlainSize, ids, Deltas(3), now)
  {
    hide Deltas, RecoveryFits, LiveLog, Replay, LogFits, NamesTools, AllWritten;
    DeltasAreDrafted(3);
    DeltasFit(ids, 3);
    forall now ensures !RecoveryFits(PlainSize, ids, Deltas(3), now) {
      OvergrownCannotEnd(PlainSize, ids, Deltas(3), 1, now);
    }
  }

  // ---------------------------------------------------------------- a tool without a name

  const NAMELESS: ToolInvocation := ToolInvocation(ToolCall(1, "", Arguments(2, Some({}))), Read)

  /** The journal takes the request of a tool that has no name, and then the store cannot be reopened. */
  lemma NamelessToolIsStuck(size: Sizes, ids: RecoveryIds, now: nat)
    ensures var log := OneTurn() + [Envelope(2, ToolRequested(1, 1, NAMELESS, 0))];
            && LiveLog(log) && Replay(EMPTY, log).Some?
            && !CanRecover(size, ids, Replay(EMPTY, log).value.journal, now)
  {
    TurnIsDrafted();
    hide LiveLog, JournalOk, EditSession, Replay, LogFits;
    var log := OneTurn();
    var m := Replay(EMPTY, log).value;
    var turn := LastTurn(m.journal, 1);
    var env := Envelope(2, ToolRequested(1, 1, NAMELESS, 0));
    LiveLogOk(log);
    NoToolsYet();
    EditLast(m.journal, 1, RequestTool(NAMELESS, 0), 0);
    ExtendLive(log, m, env);
    var edited := turn.(tools := turn.tools + [FreshTool(NAMELESS, 0)]);
    WithLastTwice(m.journal, 1, edited, 0, edited, 0);
    WithLastRuns(m.journal, 1, edited, 0);
    assert !Closed(edited.tools[0]) && !ValidCode(edited.tools[0].invocation.call.name);
    assert !OpenNamesValid(edited.tools);
  }

  lemma NoToolsYet()
    ensures Replay(EMPTY, OneTurn()).Some?
    ensures var j := Replay(EMPTY, OneTurn()).value.journal; RunsLast(j, 1) && LastTurn(j, 1).tools == []
  {
    var created := Envelope(0, SessionCreated(NewSession(1, BINDING, 0)));
    assert OneTurn()[..1] == [created] && [created][..0] == [];
  }
}
