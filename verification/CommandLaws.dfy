/** What the commands of the session journal come to, turn by turn and field by field. */
module CommandLaws {
  import opened Protocol
  import opened Requests
  import opened Session
  import opened JournalInvariant

  // ---------------------------------------------------------------- the conversation of a turn start

  /** The messages from one place to the next are a turn's user text, then its assistant text if it has
      a whole one. */
  ghost predicate Retold(t: TurnRecord, messages: seq<ConversationItem>, from: nat, to: nat) {
    && from < |messages| && messages[from] == Message(User, t.userMessage.content)
    && if t.assistantMessage.Some? && !t.assistantMessage.value.partial then
         to == from + 2 <= |messages| && messages[from + 1] == Message(Assistant, t.assistantMessage.value.content)
       else to == from + 1
  }

  /** The messages retell exactly the completed turns, in their order. */
  ghost predicate Retells(turns: seq<TurnRecord>, places: seq<nat>, starts: seq<nat>, messages: seq<ConversationItem>) {
    && |starts| == |places| + 1 && starts[0] == 0 && starts[|places|] == |messages|
    && (forall k :: 0 <= k < |places| ==> places[k] < |turns| && turns[places[k]].status == TurnCompleted)
    && (forall j, k :: 0 <= j < k < |places| ==> places[j] < places[k])
    && (forall i :: 0 <= i < |turns| && turns[i].status == TurnCompleted ==> i in places)
    && (forall k :: 0 <= k < |places| ==> Retold(turns[places[k]], messages, starts[k], starts[k + 1]))
  }

  lemma OneMoreTold(turns: seq<TurnRecord>, places: seq<nat>, starts: seq<nat>, before: seq<ConversationItem>,
                    messages: seq<ConversationItem>)
    requires turns != [] && Retells(turns[..|turns| - 1], places, starts, before) && before <= messages
    requires turns[|turns| - 1].status == TurnCompleted
    requires Retold(turns[|turns| - 1], messages, |before|, |messages|)
    ensures Retells(turns, places + [|turns| - 1], starts + [|messages|], messages)
  {
    var n := |turns| - 1;
    var longer, ends := places + [n], starts + [|messages|];
    forall k | 0 <= k < |longer| ensures Retold(turns[longer[k]], messages, ends[k], ends[k + 1]) {
      if k < |places| {
        assert Retold(turns[..n][places[k]], before, starts[k], starts[k + 1]);
      }
    }
    forall i | 0 <= i < |turns| && turns[i].status == TurnCompleted ensures i in longer {
      if i < n {
        assert turns[..n][i] == turns[i];
      } else {
        assert longer[|places|] == i;
      }
    }
  }

  lemma NoMoreTold(turns: seq<TurnRecord>, places: seq<nat>, starts: seq<nat>, messages: seq<ConversationItem>)
    requires turns != [] && Retells(turns[..|turns| - 1], places, starts, messages)
    requires turns[|turns| - 1].status != TurnCompleted
    ensures Retells(turns, places, starts, messages)
  {
    var n := |turns| - 1;
    forall i | 0 <= i < |turns| && turns[i].status == TurnCompleted ensures i in places {
      assert turns[..n][i] == turns[i];
    }
    forall k | 0 <= k < |places| ensures Retold(turns[places[k]], messages, starts[k], starts[k + 1]) {
      assert Retold(turns[..n][places[k]], messages, starts[k], starts[k + 1]);
    }
  }

  lemma {:induction false} HistoryRetells(turns: seq<TurnRecord>, except: TurnId)
    returns (places: seq<nat>, starts: seq<nat>)
    requires forall i :: 0 <= i < |turns| && turns[i].status == TurnCompleted ==> turns[i].turnId != except
    ensures Retells(turns, places, starts, History(turns, except))
  {
    if turns == [] {
      places, starts := [], [0];
    } else {
      var n := |turns| - 1;
      places, starts := HistoryRetells(turns[..n], except);
      hide Retells;
      var before, messages := History(turns[..n], except), History(turns, except);
      if turns[n].status == TurnCompleted {
        assert before <= messages && Retold(turns[n], messages, |before|, |messages|);
        OneMoreTold(turns, places, starts, before, messages);
        places, starts := places + [n], starts + [|messages|];
      } else {
        assert messages == before;
        NoMoreTold(turns, places, starts, messages);
      }
    }
  }

  /** The text that a turn start sends: the input of a Continue, or the user text of the turn that a
      Retry names, in the first session that has such a turn. */
  ghost predicate Sends(j: Journal, c: Command, input: string)
    requires c.Continue? || c.Retry?
  {
    if c.Continue? then input == c.input
    else
      exists sid, i ::
        && sid in j.sessions && 0 <= i < |j.sessions[sid].turns|
        && j.sessions[sid].turns[i].turnId == c.sourceTurnId && j.sessions[sid].turns[i].status != Running
        && input == j.sessions[sid].turns[i].userMessage.content
        && (forall k :: 0 <= k < i ==> j.sessions[sid].turns[k].turnId != c.sourceTurnId)
        && forall other, k ::
             other in j.sessions && other < sid && 0 <= k < |j.sessions[other].turns| ==>
               j.sessions[other].turns[k].turnId != c.sourceTurnId
  }

  lemma RetrySends(j: Journal, c: Command)
    requires c.Retry? && TurnToStart(j, c).Ok?
    ensures Sends(j, c, TurnToStart(j, c).value.userMessage.content)
  {
    var source := c.sourceTurnId;
    var ids := set sid | sid in j.sessions && TurnIndex(j.sessions[sid].turns, source) < |j.sessions[sid].turns|;
    var sid := Least(ids);
    var turns := j.sessions[sid].turns;
    var i := TurnIndex(turns, source);
    assert FindTurn(j, source) == Some(turns[i]);
    forall other, k | other in j.sessions && other < sid && 0 <= k < |j.sessions[other].turns|
      ensures j.sessions[other].turns[k].turnId != source
    {
      assert other !in ids;
    }
  }

  /** A turn that is started sends the active session's completed turns, retold in order, and its own
      input last; the one turn it journals runs, and holds that input. */
  lemma ConversationIsRetold(m: Machine, c: Command)
    returns (input: string, turn: TurnRecord, request: TurnRequest, told: seq<ConversationItem>,
             places: seq<nat>, starts: seq<nat>)
    requires (c.Continue? || c.Retry?) && Step(m, c).1.Ok?
    ensures m.journal.active.Some? && m.journal.active.value in m.journal.sessions && Sends(m.journal, c, input)
    ensures var s := m.journal.sessions[m.journal.active.value];
            && Step(m, c).1.value
               == [Effect.Persist(Envelope(c.recordId, TurnStarted(s.sessionId, s.binding, turn))), BeginTurn(request)]
            && Retells(s.turns, places, starts, told)
            && request == TurnRequest(s.sessionId, c.turnId, c.requestId, s.binding, told + [Message(User, input)],
                                      [], None, c.maxOutputTokens)
    ensures turn == TurnRecord(c.turnId, c.requestId, c.now, None,
                               if c.Retry? then Some(c.sourceTurnId) else None, Running,
                               VisibleMessage(User, input, false), None, None, None, [])
  {
    hide ValidRequest, IsBlank, FindTurn;
    turn := TurnToStart(m.journal, c).value;
    input := turn.userMessage.content;
    if c.Retry? {
      RetrySends(m.journal, c);
    }
    var s := ActiveSession(m.journal).value;
    assert StartGuards(m.journal, turn.turnId, turn.requestId, input) == Ok(s);
    var after := ActiveSession(Start(m.journal, s.sessionId, s.binding, turn).value).value;
    request := RequestFor(after, turn, s.binding, c.maxOutputTokens);
    told := History(after.turns, turn.turnId);
    places, starts := HistoryRetells(after.turns, turn.turnId);
    hide History;
    assert after.turns == s.turns || after.turns == s.turns + [turn];
    StillRetells(s.turns, after.turns, places, starts, told);
  }

  lemma StillRetells(turns: seq<TurnRecord>, longer: seq<TurnRecord>, places: seq<nat>, starts: seq<nat>,
                     messages: seq<ConversationItem>)
    requires Retells(longer, places, starts, messages) && turns <= longer
    requires forall i :: |turns| <= i < |longer| ==> longer[i].status != TurnCompleted
    ensures Retells(turns, places, starts, messages)
  {
    forall k | 0 <= k < |places| ensures Retold(turns[places[k]], messages, starts[k], starts[k + 1]) {
      assert Retold(longer[places[k]], messages, starts[k], starts[k + 1]);
    }
  }

  // ---------------------------------------------------------------- when a turn starts

  /** Some turn of some session runs. */
  ghost predicate SomethingRuns(j: Journal) {
    exists sid, i :: sid in j.sessions && 0 <= i < |j.sessions[sid].turns| && j.sessions[sid].turns[i].status == Running
  }

  /** The session has a turn with this id or this request id. */
  ghost predicate Used(s: SessionRecord, tid: TurnId, rid: RequestId) {
    exists i :: 0 <= i < |s.turns| && (s.turns[i].turnId == tid || s.turns[i].requestId == rid)
  }

  lemma OneSource(j: Journal, c: Command, input: string)
    requires c.Retry? && Sends(j, c, input)
    ensures FindTurn(j, c.sourceTurnId).Some?
    ensures var t := FindTurn(j, c.sourceTurnId).value; t.status != Running && t.userMessage.content == input
  {
    var source := c.sourceTurnId;
    var ids := set sid | sid in j.sessions && TurnIndex(j.sessions[sid].turns, source) < |j.sessions[sid].turns|;
    var sid, i :|
      && sid in j.sessions && 0 <= i < |j.sessions[sid].turns|
      && j.sessions[sid].turns[i].turnId == source && j.sessions[sid].turns[i].status != Running
      && input == j.sessions[sid].turns[i].userMessage.content
      && (forall k :: 0 <= k < i ==> j.sessions[sid].turns[k].turnId != source)
      && forall other, k ::
           other in j.sessions && other < sid && 0 <= k < |j.sessions[other].turns| ==>
             j.sessions[other].turns[k].turnId != source;
    assert TurnIndex(j.sessions[sid].turns, source) == i;
    assert sid in ids;
    assert Least(ids) == sid;
  }

  lemma StartReplies(m: Machine, recordId: RecordId, turn: TurnRecord, maxOutputTokens: nat)
    requires JournalOk(m.journal) && turn.status == Running
    requires StartGuards(m.journal, turn.turnId, turn.requestId, turn.userMessage.content).Ok?
    ensures var s := m.journal.sessions[m.journal.active.value];
            var told := History(s.turns + [turn], turn.turnId);
            var request := TurnRequest(m.journal.active.value, turn.turnId, turn.requestId, s.binding,
                                       told + [Message(User, turn.userMessage.content)], [], None, maxOutputTokens);
            var reply := StartTurn(m, recordId, turn, maxOutputTokens).1;
            (reply.Ok? <==> ValidRequest(request)) && (reply.Err? ==> reply.error == Configuration)
  {
    SessionIsOk(m.journal, m.journal.active.value);
    hide JournalOk, SessionOk, ValidRequest, History, IsBlank;
  }

  /** A turn starts exactly when nothing runs, its text is not blank, a session is active that has used
      neither id, and the request is valid; and a refusal says which of these failed. */
  lemma StartsExactly(m: Machine, c: Command, input: string)
    returns (told: seq<ConversationItem>, places: seq<nat>, starts: seq<nat>)
    requires (c.Continue? || c.Retry?) && JournalOk(m.journal) && Sends(m.journal, c, input)
    ensures var reply := Step(m, c).1;
            if SomethingRuns(m.journal) then reply == Err(WorkspaceBusy)
            else if IsBlank(input) then reply == Err(Configuration)
            else if m.journal.active.None? then reply == Err(Recovery)
            else
              var s := m.journal.sessions[m.journal.active.value];
              if Used(s, c.turnId, c.requestId) then reply == Err(Recovery)
              else
                var request := TurnRequest(m.journal.active.value, c.turnId, c.requestId, s.binding,
                                           told + [Message(User, input)], [], None, c.maxOutputTokens);
                && Retells(s.turns, places, starts, told)
                && (reply.Ok? <==> ValidRequest(request)) && (reply.Err? ==> reply.error == Configuration)
  {
    hide ValidRequest, IsBlank, FindTurn;
    if c.Retry? {
      OneSource(m.journal, c, input);
    }
    hide Sends;
    RunsIsBusy(m.journal);
    told, places, starts := [], [], [];
    if !SomethingRuns(m.journal) && !IsBlank(input) && m.journal.active.Some? {
      var s := m.journal.sessions[m.journal.active.value];
      SessionIsOk(m.journal, m.journal.active.value);
      if !Used(s, c.turnId, c.requestId) {
        var turn := TurnToStart(m.journal, c).value;
        var after := s.turns + [turn];
        told := History(after, turn.turnId);
        places, starts := HistoryRetells(after, turn.turnId);
        StartReplies(m, c.recordId, turn, c.maxOutputTokens);
        hide History, Retells, JournalOk, StartTurn;
        StillRetells(s.turns, after, places, starts, told);
      } else {
        hide JournalOk;
      }
    }
  }

  lemma RunsIsBusy(j: Journal)
    ensures AnyBusy(j) <==> SomethingRuns(j)
  {
    if AnyBusy(j) {
      var sid :| sid in j.sessions && Busy(j.sessions[sid]);
    }
    if SomethingRuns(j) {
      var sid, i :| sid in j.sessions && 0 <= i < |j.sessions[sid].turns| && j.sessions[sid].turns[i].status == Running;
      assert Busy(j.sessions[sid]);
    }
  }

  ghost predicate IsTurnOf(j: Journal, sid: SessionId, i: nat, tid: TurnId) {
    sid in j.sessions && i < |j.sessions[sid].turns| && j.sessions[sid].turns[i].turnId == tid
  }

  ghost predicate Exists(j: Journal, tid: TurnId) {
    exists sid, i: nat :: IsTurnOf(j, sid, i, tid)
  }

  /** A retry needs a turn to retry, and nothing may run; then it sends that turn's text. */
  lemma RetryNeedsSource(m: Machine, c: Command)
    requires c.Retry?
    ensures var (after, reply) := Step(m, c);
            if !Exists(m.journal, c.sourceTurnId) then after == m && reply == Err(Recovery)
            else if SomethingRuns(m.journal) then after == m && reply == Err(WorkspaceBusy)
            else exists input :: Sends(m.journal, c, input)
  {
    var j, source := m.journal, c.sourceTurnId;
    var ids := set sid | sid in j.sessions && TurnIndex(j.sessions[sid].turns, source) < |j.sessions[sid].turns|;
    RunsIsBusy(j);
    if ids != {} {
      var first := Least(ids);
      assert IsTurnOf(j, first, TurnIndex(j.sessions[first].turns, source), source);
    }
    if Exists(j, source) {
      var sid, i: nat :| IsTurnOf(j, sid, i, source);
      assert sid in ids;
      var first := Least(ids);
      var turn := j.sessions[first].turns[TurnIndex(j.sessions[first].turns, source)];
      assert FindTurn(j, source) == Some(turn);
      if !SomethingRuns(j) {
        assert turn in j.sessions[first].turns;
        RetrySends(j, c);
      }
    }
  }

  /** Replaying a record: nothing if it is known, a clash if its id is another's, and else what it says. */
  lemma ReplayTells(m: Machine, env: Envelope)
    ensures var (after, reply) := Step(m, ReplayRecord(env));
            if env.recordId in m.seen then
              after == m && reply == (if m.seen[env.recordId] == env then Ok([]) else Err(Recovery))
            else
              var next := ApplyRecord(m.journal, env.record);
              if next.None? then after == m && reply == Err(Recovery)
              else after == Machine(next.value, m.seen[env.recordId := env]) && reply == Ok([])
  {
  }

  // ---------------------------------------------------------------- what the other commands do

  /** The turn is the one that ran, ended now with this receipt and message; nothing else of it changes. */
  ghost predicate EndedWith(turn: TurnRecord, after: TurnRecord, receipt: TurnReceipt, message: Option<VisibleMessage>,
                            now: nat) {
    && turn.status == Running && after.status != Running && EndedAs(after.status, receipt.outcome)
    && after.completedAt == Some(now) && after.receipt == Some(receipt) && after.usage == receipt.usage
    && after.assistantMessage == message
    && after == turn.(status := after.status, completedAt := after.completedAt, receipt := after.receipt,
                      usage := after.usage, assistantMessage := after.assistantMessage)
  }

  /** Only this turn of this session has changed, and the session says when. */
  ghost predicate OnlyTurn(j: Journal, after: Journal, sid: SessionId, i: nat, now: nat)
    requires sid in j.sessions && i < |j.sessions[sid].turns|
  {
    && after.active == j.active && after.sessions.Keys == j.sessions.Keys
    && |after.sessions[sid].turns| == |j.sessions[sid].turns|
    && after.sessions[sid] == j.sessions[sid].(turns := after.sessions[sid].turns, updatedAt := now)
    && (forall k :: 0 <= k < |j.sessions[sid].turns| && k != i ==>
          after.sessions[sid].turns[k] == j.sessions[sid].turns[k])
    && (forall other :: other in j.sessions && other != sid ==> after.sessions[other] == j.sessions[other])
  }

  /** How a command ends a running turn: interrupted, with the text so far as unfinished and the usage so
      far; or as the receipt says, its text unfinished unless it completed. */
  ghost predicate Ends(c: Command, turn: TurnRecord, receipt: TurnReceipt, message: Option<VisibleMessage>) {
    if c.Finalize? then
      && receipt == c.receipt
      && (c.content.None? ==> message.None?)
      && (c.content.Some? ==> message == Some(VisibleMessage(Assistant, c.content.value, receipt.outcome != Completed)))
    else
      && (c.Interrupt? || c.Recover?)
      && receipt.outcome == WasInterrupted && receipt.usage == turn.usage
      && receipt.turnId == turn.turnId && receipt.requestId == turn.requestId
      && (c.partialText.None? ==> message.None?)
      && (c.partialText.Some? ==> message == Some(VisibleMessage(Assistant, c.partialText.value, true)))
  }

  function EndedTurnId(c: Command): TurnId
    requires c.Interrupt? || c.Recover? || c.Finalize?
  {
    match c
    case Finalize(_, receipt, _, _) => receipt.turnId
    case Interrupt(_, tid, _, _) => tid
    case Recover(_, tid, _, _) => tid
  }

  lemma FinishTells(j: Journal, receipt: TurnReceipt, message: Option<VisibleMessage>, now: nat) returns (i: nat)
    requires EndTurn(j, receipt.sessionId, receipt, message, now).Some?
    ensures receipt.sessionId in j.sessions && i < |j.sessions[receipt.sessionId].turns|
    ensures var after := EndTurn(j, receipt.sessionId, receipt, message, now).value;
            var turn := j.sessions[receipt.sessionId].turns[i];
            && turn.turnId == receipt.turnId && i == TurnIndex(j.sessions[receipt.sessionId].turns, turn.turnId)
            && OnlyTurn(j, after, receipt.sessionId, i, now)
            && EndedWith(turn, after.sessions[receipt.sessionId].turns[i], receipt, message, now)
  {
    i := TurnIndex(j.sessions[receipt.sessionId].turns, receipt.turnId);
  }

  /** The record of an ending command, and who it is about. */
  lemma EndingRecord(j: Journal, c: Command)
    requires JournalOk(j) && (c.Interrupt? || c.Recover? || c.Finalize?) && CommandRecord(j, c).Ok?
    ensures var record := CommandRecord(j, c).value;
            && record == (if c.Recover? then RecoveryApplied(record.sid, record.receipt, record.message, c.now)
                          else TurnTerminal(record.sid, record.receipt, record.message, c.now))
            && record.sid == record.receipt.sessionId && record.receipt.turnId == EndedTurnId(c)
            && (!c.Finalize? ==>
                  && record.sid in j.sessions
                  && var turns := j.sessions[record.sid].turns;
                     var i := TurnIndex(turns, EndedTurnId(c));
                  && i < |turns| && Ends(c, turns[i], record.receipt, record.message))
            && (c.Finalize? ==>
                  record.receipt == c.receipt && forall turn :: Ends(c, turn, record.receipt, record.message))
  {
    hide JournalOk, IsBlank;
    var sid := RunningSession(j, EndedTurnId(c)).value;
    SessionIsOk(j, sid);
    hide SessionOk;
  }

  /** Interrupting, recovering and finalizing end exactly the running turn they name; interrupting also
      has it aborted. */
  lemma EndingTells(m: Machine, c: Command)
    returns (sid: SessionId, i: nat, receipt: TurnReceipt, message: Option<VisibleMessage>)
    requires JournalOk(m.journal) && (c.Interrupt? || c.Recover? || c.Finalize?)
    requires Step(m, c).1.Ok? && c.recordId !in m.seen
    ensures sid in m.journal.sessions && i < |m.journal.sessions[sid].turns|
    ensures var (after, reply) := Step(m, c);
            var turn := m.journal.sessions[sid].turns[i];
            var env := Envelope(c.recordId, if c.Recover? then RecoveryApplied(sid, receipt, message, c.now)
                                            else TurnTerminal(sid, receipt, message, c.now));
            && turn.turnId == EndedTurnId(c) && OnlyTurn(m.journal, after.journal, sid, i, c.now)
            && Ends(c, turn, receipt, message) && receipt.sessionId == sid
            && EndedWith(turn, after.journal.sessions[sid].turns[i], receipt, message, c.now)
            && after.seen == m.seen[c.recordId := env]
            && reply.value == [Effect.Persist(env)] + (if c.Interrupt? then [AbortTurn(turn.turnId)] else [])
                              + [Finalized(receipt)]
  {
    hide JournalOk, Ends, EndedWith, OnlyTurn, EndTurn, CommandRecord;
    EndingRecord(m.journal, c);
    var record := CommandRecord(m.journal, c).value;
    receipt, message, sid := record.receipt, record.message, record.sid;
    i := FinishTells(m.journal, receipt, message, c.now);
    var env := Envelope(c.recordId, record);
    assert [Effect.Persist(env)] + [] == [Effect.Persist(env)];
  }

  lemma SessionIsOk(j: Journal, sid: SessionId)
    requires JournalOk(j) && sid in j.sessions
    ensures SessionOk(sid, j.sessions[sid])
  {
  }

  /** Resuming makes exactly the named session active, and leaves every turn alone; it is refused while
      anything runs. */
  lemma ResumeTells(m: Machine, c: Command)
    requires JournalOk(m.journal) && c.Resume? && c.recordId !in m.seen
    ensures var (after, reply) := Step(m, c);
            if SomethingRuns(m.journal) then after == m && reply == Err(WorkspaceBusy)
            else if c.sessionId !in m.journal.sessions then after == m && reply == Err(Recovery)
            else
              && reply == Ok([Effect.Persist(Envelope(c.recordId, SessionActivated(c.sessionId, c.now))),
                              Activated(c.sessionId)])
              && after.journal.active == Some(c.sessionId) && after.journal.sessions.Keys == m.journal.sessions.Keys
              && forall sid :: sid in m.journal.sessions ==>
                   var s := m.journal.sessions[sid];
                   after.journal.sessions[sid] == if sid == c.sessionId then s.(status := Active, updatedAt := c.now)
                                                  else s.(status := Archived)
  {
    RunsIsBusy(m.journal);
    assert [Effect.Persist(Envelope(c.recordId, SessionActivated(c.sessionId, c.now)))] + [Activated(c.sessionId)]
        == [Effect.Persist(Envelope(c.recordId, SessionActivated(c.sessionId, c.now))), Activated(c.sessionId)];
    forall sid | sid in m.journal.sessions ensures m.journal.sessions[sid].sessionId == sid {
      SessionIsOk(m.journal, sid);
    }
  }

  /** A new session is empty, active, and the only one that is. */
  lemma CreateTells(m: Machine, c: Command)
    requires JournalOk(m.journal) && c.CreateSession? && c.recordId !in m.seen
    ensures var (after, reply) := Step(m, c);
            if c.sessionId in m.journal.sessions then after == m && reply == Err(Recovery)
            else
              var s := SessionRecord(c.sessionId, c.now, c.now, Active, c.binding, [], None);
              && reply == Ok([Effect.Persist(Envelope(c.recordId, SessionCreated(s)))])
              && after.journal.active == Some(c.sessionId) && after.journal.sessions[c.sessionId] == s
              && after.journal.sessions.Keys == m.journal.sessions.Keys + {c.sessionId}
              && forall sid :: sid in m.journal.sessions ==>
                   after.journal.sessions[sid] == m.journal.sessions[sid].(status := Archived)
  {
    var s := SessionRecord(c.sessionId, c.now, c.now, Active, c.binding, [], None);
    var env := Envelope(c.recordId, SessionCreated(s));
    assert [Effect.Persist(env)] + [] == [Effect.Persist(env)];
  }

  /** A list tells of every session what it is, and changes nothing. */
  lemma ListTells(m: Machine)
    requires JournalOk(m.journal)
    ensures Step(m, ListSessions).0 == m && Step(m, ListSessions).1.Ok?
    ensures exists listed ::
              && Step(m, ListSessions).1 == Ok([Listed(listed)]) && listed.Keys == m.journal.sessions.Keys
              && forall sid :: sid in listed ==>
                   var s := m.journal.sessions[sid];
                   listed[sid] == Summary(sid, s.status, s.updatedAt, |s.turns|)
  {
    var listed := Summaries(m.journal);
    assert Step(m, ListSessions).1 == Ok([Listed(listed)]);
    forall sid | sid in m.journal.sessions ensures m.journal.sessions[sid].sessionId == sid {
      SessionIsOk(m.journal, sid);
    }
  }

  // ---------------------------------------------------------------- the order of a call's events

  /** A tool that may still refuse after its start: the two shell tools, with the codes of their own. */
  predicate RefusesLate(name: string, code: string) {
    || (name in {"shell_command", "shell_session"}
        && code in {"invalid_arguments", "input_limit", "shell_requires_full_access"})
    || (name == "shell_command" && code in {"path_not_found", "wrong_file_type", "shell_session_limit"})
    || (name == "shell_session" && code == "shell_session_not_found")
  }

  /** A call is decided once, before its start; started once, after its approval; and closed once, as what
      it was told allows. Each event says when. */
  lemma ToolEditTells(tool: ToolRecord, edit: TurnEdit)
    requires edit.DecideTool? || edit.StartTool? || edit.FinishTool?
    ensures var after := EditTool(tool, edit);
            var approved := tool.decision.Some? && tool.decision.value.kind == Approved;
            match edit
            case DecideTool(d, at) =>
              && (after.Some? <==>
                  tool.terminal.None? && tool.decision.None? && tool.startedAt.None? && ValidCode(d.code))
              && (after.Some? ==> after.value == tool.(decision := Some(d), decisionAt := Some(at)))
            case StartTool(_, at) =>
              && (after.Some? <==> tool.terminal.None? && tool.startedAt.None? && approved)
              && (after.Some? ==> after.value == tool.(startedAt := Some(at)))
            case FinishTool(r, at) =>
              && (after.Some? <==>
                  && tool.terminal.None? && r.Valid() && r.toolName == tool.invocation.call.name
                  && (r.status == Succeeded || r.status == Indeterminate ==> tool.startedAt.Some?)
                  && (r.status == Rejected ==>
                        if tool.startedAt.Some? then RefusesLate(r.toolName, r.code) else !approved)
                  && (r.status == Cancelled && tool.startedAt.Some? ==>
                        r.toolName in {"shell_command", "shell_session"} && r.code == "cancelled"))
              && (after.Some? ==> after.value == tool.(terminal := Some(r), terminalAt := Some(at)))
            case _ => false
  {
  }

  /** A report on a running turn does one thing to it: one more piece of text, one more open call, or one
      more event of a call that is there. */
  lemma TurnEditTells(turn: TurnRecord, edit: TurnEdit)
    requires !edit.Finish? && EditTurn(turn, edit).Some?
    ensures var after := EditTurn(turn, edit).value;
            && turn.status == Running
            && match edit
               case AppendDelta(delta) =>
                 after == turn.(assistantMessage :=
                                  if turn.assistantMessage.None? then Some(VisibleMessage(Assistant, delta, true))
                                  else Some(turn.assistantMessage.value.(
                                              content := turn.assistantMessage.value.content + delta)))
               case RequestTool(invocation, at) =>
                 && after == turn.(tools := turn.tools + [ToolRecord(invocation, at, None, None, None, None, None)])
                 && forall k :: 0 <= k < |turn.tools| ==>
                      turn.tools[k].invocation.call.callId != invocation.call.callId
               case Finish(_, _, _) => false
               case _ =>
                 exists k ::
                   && 0 <= k < |turn.tools| && turn.tools[k].invocation.call.callId == EditedCall(edit)
                   && EditTool(turn.tools[k], edit).Some?
                   && after == turn.(tools := turn.tools[k := EditTool(turn.tools[k], edit).value])
  {
    hide EditTool;
    if edit.DecideTool? || edit.StartTool? || edit.FinishTool? {
      var k := ToolIndex(turn.tools, EditedCall(edit));
      assert turn.tools[k].invocation.call.callId == EditedCall(edit);
    }
  }

  // ---------------------------------------------------------------- which turn a command may change

  /** The turn at this place of this session has this id, and runs. */
  ghost predicate RunsAt(j: Journal, sid: SessionId, i: nat, tid: TurnId) {
    && sid in j.sessions && i < |j.sessions[sid].turns|
    && j.sessions[sid].turns[i].turnId == tid && j.sessions[sid].turns[i].status == Running
  }

  /** At most one turn runs, and every search for it finds it. */
  lemma OneRuns(j: Journal, sid: SessionId, i: nat, tid: TurnId)
    requires JournalOk(j) && RunsAt(j, sid, i, tid)
    ensures RunningSession(j, tid) == Some(sid) && TurnIndex(j.sessions[sid].turns, tid) == i
    ensures j.sessions[sid].sessionId == sid
    ensures forall sid', i' :: RunsAt(j, sid', i', tid) ==> sid' == sid && i' == i
  {
    var found := RunningSession(j, tid);
    assert RunsTurn(j.sessions[sid], tid);
    forall sid', i' | RunsAt(j, sid', i', tid) ensures sid' == sid && i' == i {
      assert Runs(j, sid) && Runs(j, sid');
      SessionIsOk(j, sid);
    }
    assert Runs(j, sid) && Runs(j, found.value);
    SessionIsOk(j, sid);
  }

  lemma NoneRuns(j: Journal, tid: TurnId)
    requires forall sid, i: nat :: !RunsAt(j, sid, i, tid)
    ensures RunningSession(j, tid).None?
  {
    var found := RunningSession(j, tid);
    if found.Some? {
      var i :| 0 <= i < |j.sessions[found.value].turns| && j.sessions[found.value].turns[i].turnId == tid
               && j.sessions[found.value].turns[i].status == Running;
      assert RunsAt(j, found.value, i, tid);
    }
  }

  ghost predicate HasRunning(j: Journal, tid: TurnId) {
    exists sid, i: nat :: RunsAt(j, sid, i, tid)
  }

  function EditOf(report: TurnReport, now: nat): TurnEdit {
    match report
    case Delta(delta) => AppendDelta(delta)
    case Requested(invocation) => RequestTool(invocation, now)
    case Decided(decision) => DecideTool(decision, now)
    case Started(callId) => StartTool(callId, now)
    case Terminal(result) => FinishTool(result, now)
  }

  ghost predicate IsRecordOf(record: JournalRecord, c: Command, sid: SessionId)
    requires c.Report?
  {
    match c.report
    case Delta(delta) => record == TurnDelta(sid, c.turnId, delta, c.now)
    case Requested(invocation) => record == ToolRequested(sid, c.turnId, invocation, c.now)
    case Decided(decision) => record == ToolDecided(sid, c.turnId, decision, c.now)
    case Started(callId) => record == ToolStarted(sid, c.turnId, callId, c.now)
    case Terminal(result) => record == ToolTerminal(sid, c.turnId, result, c.now)
  }

  /** The report has been journaled, and its turn edited. */
  ghost predicate Reported(m: Machine, c: Command, sid: SessionId, i: nat, record: JournalRecord, after: Machine,
                           reply: Reply)
    requires c.Report?
  {
    && RunsAt(m.journal, sid, i, c.turnId) && IsRecordOf(record, c, sid)
    && EditTurn(m.journal.sessions[sid].turns[i], EditOf(c.report, c.now)).Some?
    && OnlyTurn(m.journal, after.journal, sid, i, c.now)
    && after.journal.sessions[sid].turns[i]
       == EditTurn(m.journal.sessions[sid].turns[i], EditOf(c.report, c.now)).value
    && after.seen == m.seen[c.recordId := Envelope(c.recordId, record)]
    && reply == Ok([Effect.Persist(Envelope(c.recordId, record))])
  }

  /** A report is journaled exactly when the turn it names runs and can be edited so, and then it edits that
      turn only; otherwise nothing happens. */
  lemma ReportTells(m: Machine, c: Command) returns (sid: SessionId, i: nat, record: JournalRecord)
    requires JournalOk(m.journal) && c.Report? && c.recordId !in m.seen
    ensures var (after, reply) := Step(m, c);
            && (reply.Ok? ==> Reported(m, c, sid, i, record, after, reply))
            && (reply.Err? ==>
                  && after == m && reply.error == Recovery
                  && forall sid, i: nat ::
                       RunsAt(m.journal, sid, i, c.turnId) ==>
                         EditTurn(m.journal.sessions[sid].turns[i], EditOf(c.report, c.now)).None?)
  {
    hide JournalOk, EditTurn;
    sid, i, record := 0, 0, SessionActivated(0, 0);
    if HasRunning(m.journal, c.turnId) {
      sid, i :| RunsAt(m.journal, sid, i, c.turnId);
      OneRuns(m.journal, sid, i, c.turnId);
      record := CommandRecord(m.journal, c).value;
      var env := Envelope(c.recordId, record);
      assert [Effect.Persist(env)] + [] == [Effect.Persist(env)];
    } else {
      NoneRuns(m.journal, c.turnId);
    }
  }

  /** The command can end this turn: its tools are closed, and a receipt brought along is its own. */
  ghost predicate MayEnd(j: Journal, c: Command, sid: SessionId, i: nat)
    requires c.Interrupt? || c.Recover? || c.Finalize?
  {
    && RunsAt(j, sid, i, EndedTurnId(c))
    && (forall k :: 0 <= k < |j.sessions[sid].turns[i].tools| ==> j.sessions[sid].turns[i].tools[k].terminal.Some?)
    && (c.Finalize? ==> c.receipt.sessionId == sid && c.receipt.requestId == j.sessions[sid].turns[i].requestId)
  }

  ghost predicate MayEndHere(j: Journal, sid: SessionId, i: nat, receipt: TurnReceipt) {
    && RunsAt(j, sid, i, receipt.turnId) && receipt.sessionId == sid
    && receipt.requestId == j.sessions[sid].turns[i].requestId
    && forall k :: 0 <= k < |j.sessions[sid].turns[i].tools| ==> j.sessions[sid].turns[i].tools[k].terminal.Some?
  }

  /** A receipt ends the one turn that runs, or nothing. */
  lemma EndsOrNot(j: Journal, sid: SessionId, i: nat, receipt: TurnReceipt, message: Option<VisibleMessage>, now: nat)
    requires JournalOk(j) && RunsAt(j, sid, i, receipt.turnId)
    ensures EndTurn(j, receipt.sessionId, receipt, message, now).Some? <==> MayEndHere(j, sid, i, receipt)
  {
    OneRuns(j, sid, i, receipt.turnId);
    hide JournalOk, RunningSession;
    var other := receipt.sessionId;
    if other in j.sessions && other != sid {
      assert !RunsAt(j, other, TurnIndex(j.sessions[other].turns, receipt.turnId), receipt.turnId);
    }
  }

  /** A command is journaled exactly if its record applies. */
  lemma JournaledOrNot(m: Machine, c: Command)
    requires Journals(c) && c.recordId !in m.seen && CommandRecord(m.journal, c).Ok?
    ensures var (after, reply) := Step(m, c);
            && (reply.Ok? <==> ApplyRecord(m.journal, CommandRecord(m.journal, c).value).Some?)
            && (reply.Err? ==> after == m && reply.error == Recovery)
  {
    hide ApplyRecord, CommandRecord;
  }

  lemma EndsHere(m: Machine, c: Command, sid: SessionId, i: nat)
    requires JournalOk(m.journal) && (c.Interrupt? || c.Recover? || c.Finalize?) && c.recordId !in m.seen
    requires RunsAt(m.journal, sid, i, EndedTurnId(c))
    ensures var (after, reply) := Step(m, c);
            (reply.Ok? <==> MayEnd(m.journal, c, sid, i)) && (reply.Err? ==> after == m && reply.error == Recovery)
  {
    var j := m.journal;
    OneRuns(j, sid, i, EndedTurnId(c));
    hide JournalOk, RunningSession, Step, EndTurn, ApplyRecord;
    assert CommandRecord(j, c).Ok?;
    EndingRecord(j, c);
    hide CommandRecord;
    var record := CommandRecord(j, c).value;
    EndsOrNot(j, sid, i, record.receipt, record.message, c.now);
    JournaledOrNot(m, c);
    EndingApplies(j, record);
  }

  lemma EndingApplies(j: Journal, record: JournalRecord)
    requires record.TurnTerminal? || record.RecoveryApplied?
    ensures ApplyRecord(j, record) == EndTurn(j, record.sid, record.receipt, record.message, record.at)
  {
  }

  /** A turn is ended exactly when it runs, has no open tool, and the receipt is its own. */
  lemma EndsExactly(m: Machine, c: Command)
    requires JournalOk(m.journal) && (c.Interrupt? || c.Recover? || c.Finalize?) && c.recordId !in m.seen
    ensures var (after, reply) := Step(m, c);
            && (reply.Ok? <==> exists sid, i: nat :: MayEnd(m.journal, c, sid, i))
            && (reply.Err? ==> after == m && reply.error == Recovery)
  {
    var j, tid := m.journal, EndedTurnId(c);
    if HasRunning(j, tid) {
      var sid, i: nat :| RunsAt(j, sid, i, tid);
      hide Step, JournalOk;
      EndsHere(m, c, sid, i);
      OneRuns(j, sid, i, tid);
    } else {
      NoneRuns(j, tid);
      hide JournalOk;
      assert CommandRecord(j, c) == Err(Recovery);
    }
  }

  // ---------------------------------------------------------------- compaction and trace records

  ghost predicate DoneAt(turns: seq<TurnRecord>, i: nat, tid: TurnId) {
    i < |turns| && turns[i].turnId == tid && turns[i].status == TurnCompleted
  }

  /** Every turn that the compaction retains was completed by the place it covers. */
  ghost predicate RetainsDone(turns: seq<TurnRecord>, i: nat, retained: seq<RecentTurn>) {
    forall r :: 0 <= r < |retained| ==> DoneBy(turns, i, retained[r].turnId)
  }

  ghost predicate DoneBy(turns: seq<TurnRecord>, i: nat, tid: TurnId) {
    exists k :: 0 <= k <= i && DoneAt(turns, k, tid)
  }

  /** There is no compaction yet, or it is another one that covers an earlier place. */
  ghost predicate Replaces(s: SessionRecord, c: CompactionRecord, i: nat) {
    s.compaction.Some? ==>
      && s.compaction.value.compactionId != c.compactionId
      && exists b :: 0 <= b < i && b < |s.turns| && s.turns[b].turnId == s.compaction.value.coveredThrough
  }

  ghost predicate MayStore(s: SessionRecord, c: CompactionRecord, i: nat) {
    DoneAt(s.turns, i, c.coveredThrough) && RetainsDone(s.turns, i, c.recentTurns) && Replaces(s, c, i)
  }

  /** A compaction is stored exactly when it covers a completed turn, retains only turns completed by then,
      and goes further than the one before; storing it moves the pointer of its session and nothing else. */
  lemma CompactionTells(j: Journal, sid: SessionId, c: CompactionRecord, at: nat)
    requires JournalOk(j)
    ensures ApplyRecord(j, CompactionStored(sid, c, at)).Some? <==>
              sid in j.sessions && exists i :: 0 <= i < |j.sessions[sid].turns| && MayStore(j.sessions[sid], c, i)
    ensures ApplyRecord(j, CompactionStored(sid, c, at)).Some? ==>
              var after := ApplyRecord(j, CompactionStored(sid, c, at)).value;
              && after.active == j.active && after.sessions.Keys == j.sessions.Keys
              && after.sessions[sid] == j.sessions[sid].(compaction := after.sessions[sid].compaction, updatedAt := at)
              && after.sessions[sid].compaction == Some(CompactionPointer(c.compactionId, c.coveredThrough))
              && forall other :: other in j.sessions && other != sid ==> after.sessions[other] == j.sessions[other]
  {
    if sid in j.sessions {
      SessionIsOk(j, sid);
      var s := j.sessions[sid];
      forall i | 0 <= i < |s.turns| && DoneAt(s.turns, i, c.coveredThrough)
        ensures i == CompletedIndex(s.turns, c.coveredThrough)
        ensures MayStore(s, c, i) <==> ApplyRecord(j, CompactionStored(sid, c, at)).Some?
      {
        FirstIsOnly(sid, s.turns, i, c.coveredThrough);
        RetainsIs(s.turns, i, c.recentTurns);
        ReplacesIs(sid, s, c, i);
      }
      var covered := CompletedIndex(s.turns, c.coveredThrough);
      assert covered < |s.turns| ==> DoneAt(s.turns, covered, c.coveredThrough);
    }
  }

  lemma FirstIsOnly(sid: SessionId, turns: seq<TurnRecord>, i: nat, tid: TurnId)
    requires TurnsOk(sid, turns) && i < |turns| && turns[i].turnId == tid
    ensures TurnIndex(turns, tid) == i && (turns[i].status == TurnCompleted ==> CompletedIndex(turns, tid) == i)
  {
    var t, c := TurnIndex(turns, tid), CompletedIndex(turns, tid);
  }

  lemma RetainsIs(turns: seq<TurnRecord>, i: nat, retained: seq<RecentTurn>)
    requires i < |turns|
    ensures RetainsDone(turns, i, retained) <==> CoversRetained(turns[..i + 1], retained)
  {
    var first := turns[..i + 1];
    forall tid ensures DoneBy(turns, i, tid) <==>
                       exists k :: 0 <= k < |first| && first[k].turnId == tid && first[k].status == TurnCompleted
    {
      if DoneBy(turns, i, tid) {
        var k :| 0 <= k <= i && DoneAt(turns, k, tid);
        assert first[k] == turns[k];
      }
      if k :| 0 <= k < |first| && first[k].turnId == tid && first[k].status == TurnCompleted {
        assert DoneAt(turns, k, tid);
      }
    }
    hide DoneBy;
    assert (forall r :: 0 <= r < |retained| ==> DoneBy(turns, i, retained[r].turnId)) <==>
           forall r :: 0 <= r < |retained| ==>
             exists k :: 0 <= k < |first| && first[k].turnId == retained[r].turnId && first[k].status == TurnCompleted;
  }

  lemma ReplacesIs(sid: SessionId, s: SessionRecord, c: CompactionRecord, i: nat)
    requires TurnsOk(sid, s.turns) && i < |s.turns|
    ensures Replaces(s, c, i) <==>
              (s.compaction.Some? ==>
                 && s.compaction.value.compactionId != c.compactionId
                 && TurnIndex(s.turns, s.compaction.value.coveredThrough) < i)
  {
    if s.compaction.Some? {
      var tid := s.compaction.value.coveredThrough;
      var t := TurnIndex(s.turns, tid);
      if b :| 0 <= b < i && b < |s.turns| && s.turns[b].turnId == tid {
        FirstIsOnly(sid, s.turns, b, tid);
      }
    }
  }

  /** A trace is stored for a known session, and changes nothing else. */
  lemma TraceTells(j: Journal, record: JournalRecord)
    requires record.TraceStored?
    ensures ApplyRecord(j, record) == if record.sid in j.sessions then Some(j) else None
  {
  }
}
