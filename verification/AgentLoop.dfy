/** The agent loop: provider rounds and tool calls in turn, until one receipt ends the turn. */
module AgentLoop {
  import opened Protocol
  import opened Requests
  import opened Session
  import opened JournalInvariant
  import opened ReplayLaws
  import opened Store
  import opened StoreRecovery
  import opened Invocation
  import opened Budget
  import opened ToolDriver
  import R = Runtime
  import Laws = RunLaws
  import Outcomes = RunOutcomes

  // ---------------------------------------------------------------- the calls a run asks for

  /** Calls that a request may carry: valid, defined, and with ids of their own. */
  ghost predicate CallsFit(tools: seq<ToolDefinition>, invs: seq<ToolInvocation>) {
    && (forall k :: 0 <= k < |invs| ==> invs[k].call.Valid() && Defined(tools, invs[k].call))
    && (forall i, k :: 0 <= i < k < |invs| ==> invs[i].call.callId != invs[k].call.callId)
  }

  ghost predicate RunFits(s: R.RunState) {
    match s
    case Running(request, _, pending) => CallsFit(request.tools, pending)
    case AwaitingTools(request, _, invocations) => CallsFit(request.tools, invocations) && invocations != []
    case _ => true
  }

  lemma {:induction false} CollectFits(tools: seq<ToolDefinition>, pending: seq<ToolInvocation>,
                                       fragments: seq<R.Fragment>)
    requires CallsFit(tools, pending)
    ensures CallsFit(tools, R.Collect(tools, pending, fragments).0)
    decreases fragments
  {
    if fragments != [] {
      var inv := R.InvocationFrom(tools, pending, fragments[0]);
      if inv.Ok? {
        CollectFits(tools, pending + [inv.value], fragments[1..]);
      }
    }
  }

  /** A run only ever collects calls that fit its request, and only awaits tools when it has some. */
  lemma RunStepFits(s: R.RunState, input: R.RunInput)
    requires RunFits(s)
    ensures RunFits(R.RunStep(s, input).0)
  {
    hide CallsFit;
    NoCallsFit();
    if s.Running? && input.ProviderEvent? && input.event.CallFragments? {
      CollectFits(s.request.tools, s.pending, input.event.fragments);
    }
  }

  lemma NoCallsFit()
    ensures forall tools :: CallsFit(tools, [])
  {
  }

  // ---------------------------------------------------------------- the conversation

  function CallsIn(invs: seq<ToolInvocation>): (calls: seq<ToolCall>)
    ensures |calls| == |invs| && forall k :: 0 <= k < |calls| ==> calls[k] == invs[k].call
  {
    seq(|invs|, k requires 0 <= k < |invs| => invs[k].call)
  }

  function Outputs(results: seq<ToolResult>): (items: seq<ConversationItem>)
    ensures |items| == |results| && forall k :: 0 <= k < |items| ==> items[k] == ToolOutput(results[k])
  {
    if results == [] then [] else Outputs(results[..|results| - 1]) + [ToolOutput(results[|results| - 1])]
  }

  /** What one round of tools adds to the conversation. */
  function Batch(invs: seq<ToolInvocation>, results: seq<ToolResult>): seq<ConversationItem> {
    [ToolCalls(CallsIn(invs))] + Outputs(results)
  }

  /** Paired, with the first `n` calls answered, in order. */
  ghost predicate AnsweredTo(items: seq<ConversationItem>, tools: seq<ToolDefinition>, n: nat) {
    && Paired(items, tools)
    && n <= |CallsOf(items)|
    && ResultIds(ResultsOf(items)) == CallIds(CallsOf(items))[..n]
  }

  ghost predicate Answered(items: seq<ConversationItem>, tools: seq<ToolDefinition>) {
    AnsweredTo(items, tools, |CallsOf(items)|)
  }

  ghost predicate Answering(inv: ToolInvocation, result: ToolResult) {
    CheckResult(inv, result).None?
  }

  lemma OneMoreItem(items: seq<ConversationItem>, item: ConversationItem)
    ensures CallsOf(items + [item]) == CallsOf(items) + ItemCalls(item)
    ensures ResultsOf(items + [item]) == ResultsOf(items) + ItemResults(item)
  {
    assert (items + [item])[..|items|] == items;
  }

  lemma AnswerNext(items: seq<ConversationItem>, tools: seq<ToolDefinition>, n: nat, result: ToolResult)
    requires AnsweredTo(items, tools, n) && n < |CallsOf(items)|
    requires var c := CallsOf(items)[n]; c.callId == result.callId && c.name == result.toolName
    requires result.Valid()
    ensures AnsweredTo(items + [ToolOutput(result)], tools, n + 1)
    ensures CallsOf(items + [ToolOutput(result)]) == CallsOf(items)
    ensures ResultsOf(items + [ToolOutput(result)]) == ResultsOf(items) + [result]
  {
    hide AllFit;
    var item := ToolOutput(result);
    var calls, results := CallsOf(items), ResultsOf(items);
    OneMoreItem(items, item);
    assert calls + [] == calls;
    ResultIdsConcat(results, [result]);
    assert ResultIds(results + [result]) == CallIds(calls)[..n + 1];
    assert Answers(calls, result) by { assert calls[n] in calls; }
    PairedStep(items, tools, item);
  }

  lemma NewCallsDistinct(calls: seq<ToolCall>, tools: seq<ToolDefinition>, invs: seq<ToolInvocation>)
    requires Distinct(CallIds(calls)) && CallsFit(tools, invs)
    requires forall k :: 0 <= k < |invs| ==> invs[k].call.callId !in CallIds(calls)
    ensures Distinct(CallIds(calls + CallsIn(invs)))
  {
    hide Defined, ToolCall.Valid;
    CallIdsConcat(calls, CallsIn(invs));
    var ours, theirs := CallIds(calls), CallIds(CallsIn(invs));
    forall i, j | 0 <= i < |ours| && 0 <= j < |theirs| ensures ours[i] != theirs[j] {
      assert ours[i] in ours;
    }
    DistinctConcat(ours, theirs);
  }

  lemma CallsFitItem(tools: seq<ToolDefinition>, invs: seq<ToolInvocation>, before: seq<ToolCall>)
    requires CallsFit(tools, invs) && invs != []
    ensures ItemFits(ToolCalls(CallsIn(invs)), tools, before)
  {
    hide Defined, ToolCall.Valid;
  }

  lemma AskAll(items: seq<ConversationItem>, tools: seq<ToolDefinition>, invs: seq<ToolInvocation>)
    requires Answered(items, tools) && CallsFit(tools, invs) && invs != []
    requires forall k :: 0 <= k < |invs| ==> invs[k].call.callId !in CallIds(CallsOf(items))
    ensures AnsweredTo(items + [ToolCalls(CallsIn(invs))], tools, |CallsOf(items)|)
    ensures CallsOf(items + [ToolCalls(CallsIn(invs))]) == CallsOf(items) + CallsIn(invs)
    ensures ResultsOf(items + [ToolCalls(CallsIn(invs))]) == ResultsOf(items)
  {
    hide AllFit, ItemFits, CallsFit, Distinct, CallsIn, CallsOf, ResultsOf;
    var item := ToolCalls(CallsIn(invs));
    var calls, results := CallsOf(items), ResultsOf(items);
    OneMoreItem(items, item);
    assert results + [] == results;
    NewCallsDistinct(calls, tools, invs);
    CallsFitItem(tools, invs, calls);
    CallIdsConcat(calls, CallsIn(invs));
    assert CallIds(calls + CallsIn(invs))[..|calls|] == CallIds(calls)[..|calls|];
    PairedStep(items, tools, item);
  }

  /** A round of tools leaves a fully answered conversation fully answered. */
  lemma {:induction false} BatchKeepsAnswered(items: seq<ConversationItem>, tools: seq<ToolDefinition>,
                                              invs: seq<ToolInvocation>, results: seq<ToolResult>)
    requires Answered(items, tools) && CallsFit(tools, invs) && invs != []
    requires forall k :: 0 <= k < |invs| ==> invs[k].call.callId !in CallIds(CallsOf(items))
    requires |results| <= |invs|
    requires forall k :: 0 <= k < |results| ==> Answering(invs[k], results[k])
    ensures AnsweredTo(items + Batch(invs, results), tools, |CallsOf(items)| + |results|)
    ensures CallsOf(items + Batch(invs, results)) == CallsOf(items) + CallsIn(invs)
    ensures ResultsOf(items + Batch(invs, results)) == ResultsOf(items) + results
    decreases results
  {
    hide AnsweredTo, CallsFit, CallsOf, ResultsOf;
    if results == [] {
      AskAll(items, tools, invs);
      assert Batch(invs, []) == [ToolCalls(CallsIn(invs))];
      assert ResultsOf(items) + [] == ResultsOf(items);
    } else {
      var n := |results| - 1;
      BatchKeepsAnswered(items, tools, invs, results[..n]);
      var before := items + Batch(invs, results[..n]);
      assert items + Batch(invs, results) == before + [ToolOutput(results[n])];
      assert CallsOf(before)[|CallsOf(items)| + n] == invs[n].call;
      assert Answering(invs[n], results[n]);
      AnswerNext(before, tools, |CallsOf(items)| + n, results[n]);
      assert ResultsOf(items) + results == (ResultsOf(items) + results[..n]) + [results[n]];
    }
  }

  lemma BatchHasResult(items: seq<ConversationItem>, invs: seq<ToolInvocation>, results: seq<ToolResult>, k: nat)
    requires k < |invs| == |results| && Answering(invs[k], results[k])
    ensures R.HasResultFor(items + Batch(invs, results), invs[k].call.callId)
  {
    var all := items + Batch(invs, results);
    assert all[|items| + 1 + k] == ToolOutput(results[k]);
  }

  /** A verdict's result answers its call, and an execution is paid for by one tool call. */
  ghost predicate VerdictFits(inv: ToolInvocation, b: Spending, v: Verdict) {
    v.Verdict? ==>
      && v.final.Progress? && v.final.terminal.Some? && Answering(inv, v.final.terminal.value)
      && b.calls <= v.spent.calls && (v.executed ==> v.spent.calls == b.calls + 1)
  }

  lemma AfterStartFits(inv: ToolInvocation, o: ToolOracle, d: ToolDecision, b: Spending)
    requires inv.call.Valid()
    ensures var v := AfterStart(inv, o, d, b);
            v.Verdict? ==>
              && v.final.Progress? && v.final.terminal.Some? && Answering(inv, v.final.terminal.value)
              && v.spent.calls == b.calls
  {
    FixedCodesValid();
    ResultForValid(inv, Indeterminate, "effect_unknown");
    BudgetFailureValid(inv, Elapsed);
    BudgetFailureValid(inv, BytesExhausted);
    hide CheckResult, ValidCode, LegalAfterStart, BudgetFailure, ResultFor, NormalizeExecution;
  }

  lemma AfterApprovalFits(inv: ToolInvocation, o: ToolOracle, d: ToolDecision, b: Spending)
    requires inv.call.Valid()
    ensures VerdictFits(inv, b, AfterApproval(inv, o, d, b))
  {
    AfterStartFits(inv, o, d, b.(calls := b.calls + 1));
    BudgetFailureValid(inv, Elapsed);
    BudgetFailureValid(inv, CallsExhausted);
    hide CheckResult, ValidCode, BudgetFailure, AfterStart;
  }

  lemma AfterAskingFits(inv: ToolInvocation, o: ToolOracle, b: Spending)
    requires inv.call.Valid()
    ensures VerdictFits(inv, b, AfterAsking(inv, o, b))
  {
    FixedCodesValid();
    ResultForValid(inv, Cancelled, "cancelled_before_start");
    if o.approval.Some? {
      var d := NormalizeDecision(inv, o.approval.value);
      ResultForValid(inv, Rejected, d.code);
      AfterApprovalFits(inv, o, d, b);
    }
    hide CheckResult, ValidCode, ResultFor, NormalizeDecision, AfterApproval;
  }

  lemma VerdictAnswers(inv: ToolInvocation, mode: PermissionMode, o: ToolOracle, b: Spending)
    requires inv.call.Valid()
    ensures VerdictFits(inv, b, CallVerdict(inv, mode, o, b))
  {
    FixedCodesValid();
    ResultForValid(inv, Cancelled, "cancelled_before_start");
    AfterAskingFits(inv, o, b);
    AfterApprovalFits(inv, o, ToolDecision(inv.call.callId, DecisionKind.Approved, "policy_approved"), b);
    hide CheckResult, ValidCode, ResultFor, AfterAsking, AfterApproval;
  }

  // ---------------------------------------------------------------- ending the turn

  function FinalMessage(text: string, outcome: Outcome): Option<VisibleMessage> {
    if text == "" then None else Some(VisibleMessage(Assistant, text, outcome != Completed))
  }

  function EndedTurn(turn: TurnRecord, receipt: TurnReceipt, text: string, now: nat): TurnRecord {
    turn.(status := TurnStatusOf(receipt.outcome), completedAt := Some(now),
          assistantMessage := FinalMessage(text, receipt.outcome), usage := receipt.usage, receipt := Some(receipt))
  }

  ghost predicate ReceiptFor(sid: SessionId, turn: TurnRecord, receipt: TurnReceipt) {
    receipt.sessionId == sid && receipt.turnId == turn.turnId && receipt.requestId == turn.requestId
  }

  /** The final command ends the running turn whenever no tool of it is open. */
  lemma FinalizeStep(m: Machine, sid: SessionId, rid: RecordId, receipt: TurnReceipt, text: string, now: nat)
    requires JournalOk(m.journal) && RunsLast(m.journal, sid) && rid !in m.seen
    requires ReceiptFor(sid, LastTurn(m.journal, sid), receipt) && AllClosed(LastTurn(m.journal, sid).tools)
    ensures var env := Envelope(rid, TurnTerminal(sid, receipt, FinalMessage(text, receipt.outcome), now));
            Step(m, Command.Finalize(rid, receipt, if text == "" then None else Some(text), now))
            == (Machine(WithLast(m.journal, sid, EndedTurn(LastTurn(m.journal, sid), receipt, text, now), now),
                        m.seen[rid := env]),
                Ok([Effect.Persist(env), Finalized(receipt)]))
  {
    hide JournalOk;
    RunningIsFound(m.journal, sid);
    var message := FinalMessage(text, receipt.outcome);
    EditLast(m.journal, sid, Finish(receipt, message, now), now);
    hide EditSession;
    var env := Envelope(rid, TurnTerminal(sid, receipt, message, now));
    assert [Effect.Persist(env)] + [Finalized(receipt)] == [Effect.Persist(env), Finalized(receipt)];
  }

  /** The store is sound, and record ids are issued above all known ones. */
  ghost predicate Sound(driver: Driver)
    reads driver`nextId, driver.store, driver.store.machine
  {
    && driver.store.Valid() && LiveLog(driver.store.journal)
    && forall id :: id in driver.store.recordsById ==> id < driver.nextId
  }

  /** The session's last turn is `turn`, and it has ended. */
  ghost predicate TurnIs(driver: Driver, sid: SessionId, turn: TurnRecord)
    reads driver, driver.store, driver.store.machine
  {
    && Sound(driver)
    && sid in driver.store.machine.sessions && driver.store.machine.sessions[sid].turns != []
    && LastTurn(driver.store.machine.Project(), sid) == turn
  }

  // ---------------------------------------------------------------- run effects and the journal

  function FirstReceipt(effects: seq<R.RunEffect>): Option<TurnReceipt> {
    if effects == [] then None
    else if effects[0].Finalize? then Some(effects[0].receipt)
    else FirstReceipt(effects[1..])
  }

  /** Up to `closed` nothing ends the run; what follows, if anything, is its end. */
  ghost predicate ClosesAt(effects: seq<R.RunEffect>, closed: nat) {
    && closed <= |effects|
    && (forall i :: 0 <= i < closed ==> !Laws.EndsRun(effects[i]))
    && (closed < |effects| ==>
          && FirstReceipt(effects).Some?
          && effects[closed..] == Laws.Closing(FirstReceipt(effects).value))
  }

  function ClosingIndex(effects: seq<R.RunEffect>, ends: bool): int {
    if ends then |effects| - 3 else |effects|
  }

  lemma {:induction false} ReceiptIsFirst(before: seq<R.RunEffect>, receipt: TurnReceipt)
    requires Laws.Ongoing(before)
    ensures FirstReceipt(before + Laws.Closing(receipt)) == Some(receipt)
  {
    var all := before + Laws.Closing(receipt);
    if before == [] {
      assert all == Laws.Closing(receipt);
      assert all[1..][1..] == [R.Finalize(receipt)];
      assert FirstReceipt(all[1..][1..]) == Some(receipt);
    } else {
      assert all[1..] == before[1..] + Laws.Closing(receipt);
      assert !Laws.EndsRun(before[0]);
      ReceiptIsFirst(before[1..], receipt);
    }
  }

  lemma ClosingClosesAt(effects: seq<R.RunEffect>, receipt: TurnReceipt)
    requires Laws.Closes(effects, receipt)
    ensures |effects| >= 3 && ClosesAt(effects, |effects| - 3) && FirstReceipt(effects) == Some(receipt)
  {
    hide FirstReceipt;
    var before :| Laws.Ongoing(before) && effects == before + Laws.Closing(receipt);
    ReceiptIsFirst(before, receipt);
    assert effects[|effects| - 3..] == Laws.Closing(receipt);
    forall i | 0 <= i < |effects| - 3 ensures !Laws.EndsRun(effects[i]) {
      assert effects[i] == before[i];
    }
  }

  lemma OngoingClosesAt(effects: seq<R.RunEffect>)
    requires Laws.Ongoing(effects)
    ensures ClosesAt(effects, |effects|)
  {
  }

  lemma OnlyLiveEnds(s: R.RunState, input: R.RunInput)
    requires !s.Terminal?
    ensures R.Live(s) || R.RunStep(s, input).0.Idle? || input.Begin?
  {
  }

  lemma StepClosesAt(s: R.RunState, input: R.RunInput)
    requires !s.Terminal? && R.RunStep(s, input).1.Ok?
    ensures var (next, reply) := R.RunStep(s, input);
            var closed := ClosingIndex(reply.value, next.Terminal?);
            && Laws.ShowsWhatItKeeps(reply.value)
            && 0 <= closed && ClosesAt(reply.value, closed)
            && (next.Terminal? ==> FirstReceipt(reply.value) == Some(next.receipt))
            && (R.Live(s) || next.Idle? || input.Begin?)
  {
    hide R.RunStep, Laws.Closes, Laws.Ongoing, Laws.ShowsWhatItKeeps, FirstReceipt, ClosesAt, Laws.TotalUsage;
    Laws.FairRunStep(s, input);
    OnlyLiveEnds(s, input);
    var (next, reply) := R.RunStep(s, input);
    if next.Terminal? {
      ClosingClosesAt(reply.value, next.receipt);
    } else {
      OngoingClosesAt(reply.value);
    }
  }

  ghost predicate TextSoFar(message: Option<VisibleMessage>, text: string) {
    if message.None? then text == "" else message.value == VisibleMessage(Assistant, text, true)
  }

  /** `turn` runs, and the journal holds the text shown so far. */
  ghost predicate Speaking(driver: Driver, sid: SessionId, turn: TurnRecord, text: string)
    reads driver`nextId, driver.store, driver.store.machine
  {
    && driver.Ready(sid)
    && driver.Turn(sid) == turn.(assistantMessage := driver.Turn(sid).assistantMessage)
    && TextSoFar(driver.Turn(sid).assistantMessage, text)
  }

  /** Journals one piece of visible text, if its record fits. */
  method Speak(driver: Driver, ghost sid: SessionId, ghost turn: TurnRecord, ghost text: string, delta: string,
               now: nat)
    returns (r: Result<(), StoreError>)
    requires Speaking(driver, sid, turn, text)
    modifies driver`nextId, driver.store
    ensures r.Ok? <==> Fits(driver.store.size, Envelope(old(driver.nextId), TurnDelta(sid, turn.turnId, delta, now)))
    ensures r.Err? ==> r.error == RecordTooLarge
    ensures Speaking(driver, sid, turn, if r.Ok? then text + delta else text) && driver.nextId == old(driver.nextId) + 1
    ensures driver.store.machine == old(driver.store.machine) || fresh(driver.store.machine)
    ensures Extends(old(driver.store.journal), driver.store.journal)
  {
    hide LiveLog, Fits;
    assert ReportRecord(sid, driver.Turn(sid).turnId, Delta(delta), now) == TurnDelta(sid, turn.turnId, delta, now);
    assert EditTurn(driver.Turn(sid), ReportEdit(Delta(delta), now)).Some?;
    ghost var before := driver.store.machine.Project();
    ExtendsSame(driver.store.journal);
    ExtendsOne(driver.store.journal,
               Envelope(driver.nextId, ReportRecord(sid, driver.Turn(sid).turnId, Delta(delta), now)));
    hide Extends;
    r := driver.Tell(sid, Delta(delta), now);
    assert "" + delta == delta;
    WithLastTwice(before, sid, EditTurn(LastTurn(before, sid), AppendDelta(delta)).value, now, turn, now);
  }

  /** The record that ends the turn; it carries the whole text. */
  function FinalRecord(sid: SessionId, receipt: TurnReceipt, text: string, now: nat): JournalRecord {
    TurnTerminal(sid, receipt, FinalMessage(text, receipt.outcome), now)
  }

  /** Journals the end of the turn, exactly when its record fits; otherwise the turn goes on. */
  method FinalizeTurn(driver: Driver, ghost sid: SessionId, ghost turn: TurnRecord, receipt: TurnReceipt, text: string,
                      now: nat)
    returns (r: Result<seq<Effect>, StoreError>)
    requires Speaking(driver, sid, turn, text)
    requires ReceiptFor(sid, turn, receipt) && AllClosed(turn.tools)
    modifies driver`nextId, driver.store
    ensures driver.store.machine == old(driver.store.machine) || fresh(driver.store.machine)
    ensures r.Ok? <==> Fits(driver.store.size, Envelope(old(driver.nextId), FinalRecord(sid, receipt, text, now)))
    ensures r.Ok? ==> TurnIs(driver, sid, EndedTurn(turn, receipt, text, now))
    ensures r.Err? ==> r.error == RecordTooLarge && Speaking(driver, sid, turn, text)
                       && driver.nextId == old(driver.nextId) + 1
    ensures Extends(old(driver.store.journal), driver.store.journal)
  {
    hide JournalOk, Extends, LiveLog, Step, ReusesId, Replay, Fits, LogFits;
    ExtendsSame(driver.store.journal);
    var id := driver.nextId;
    driver.nextId := id + 1;
    LiveLogOk(driver.store.journal);
    ghost var before := driver.store.machine.View();
    FinalizeStep(before, sid, id, receipt, text, now);
    ghost var env := Envelope(id, TurnTerminal(sid, receipt, FinalMessage(text, receipt.outcome), now));
    PersistedPrefix(env, [Finalized(receipt)]);
    NoneAfter([Finalized(receipt)]);
    assert [Effect.Persist(env)] + [Finalized(receipt)] == [Effect.Persist(env), Finalized(receipt)];
    var content := if text == "" then None else Some(text);
    NotAStart(before, Command.Finalize(id, receipt, content, now));
    ExtendsOne(driver.store.journal, env);
    r := driver.store.ApplyCommand(Command.Finalize(id, receipt, content, now));
  }

  /** A receipt of the turn is what an input can only end with. */
  ghost predicate InputOfTurn(s: R.RunState, input: R.RunInput, sid: SessionId, turn: TurnRecord) {
    && !s.Terminal?
    && (R.Live(s) ==> Laws.IdsOf(s) == Some((sid, turn.turnId, turn.requestId)))
  }

  lemma EndsOwnTurn(s: R.RunState, input: R.RunInput, sid: SessionId, turn: TurnRecord)
    requires InputOfTurn(s, input, sid, turn)
    ensures var next := R.RunStep(s, input).0;
            next.Terminal? ==> ReceiptFor(sid, turn, next.receipt)
  {
    Laws.FairRunStep(s, input);
    hide Laws.ShowsWhatItKeeps, Laws.Closes, Laws.TotalUsage;
  }

  lemma StillLive(s: R.RunState, input: R.RunInput, sid: SessionId, turn: TurnRecord)
    requires InputOfTurn(s, input, sid, turn)
    ensures !s.Terminal?
  {
  }

  lemma OneMoreEffect(effects: seq<R.RunEffect>, i: nat)
    requires i < |effects|
    ensures var e := effects[i];
            && Laws.PublishedEvents(effects[..i + 1])
               == Laws.PublishedEvents(effects[..i]) + (if e.Publish? then [e.event] else [])
            && Laws.ShownText(Laws.PersistedEvents(effects[..i + 1]))
               == Laws.ShownText(Laws.PersistedEvents(effects[..i]))
                  + (if e.Persist? && e.event.VisibleText? then e.event.delta else "")
  {
    assert effects[..i + 1][..i] == effects[..i];
    var kept := Laws.PersistedEvents(effects[..i]);
    if effects[i].Persist? {
      assert (kept + [effects[i].event])[..|kept|] == kept;
    } else {
      assert kept + [] == kept;
    }
  }

  /** Feeds the run machine and carries out its effects, in order. The journal takes every text and
      every end that the run reaches, since an end meets no open tool, unless the record is too large. */
  method ApplyInput(driver: Driver, machine: R.RunMachine, input: R.RunInput, ghost sid: SessionId,
                    ghost turn: TurnRecord, events0: seq<R.RuntimeEvent>, assistant0: string, now: nat)
    returns (r: Result<(), DriverError>, events: seq<R.RuntimeEvent>, assistant: string)
    requires Speaking(driver, sid, turn, assistant0) && AllClosed(turn.tools)
    requires InputOfTurn(machine.state, input, sid, turn)
    modifies machine, driver`nextId, driver.store
    ensures driver.store.machine == old(driver.store.machine) || fresh(driver.store.machine)
    ensures var (next, reply) := R.RunStep(old(machine.state), input);
            && machine.state == next
            && r == InputReply(driver.store.size, old(machine.state), input, sid, turn.turnId, assistant0,
                               old(driver.nextId), now)
            && (r.Ok? ==>
                  && events == events0 + Laws.PublishedEvents(reply.value)
                  && assistant == assistant0 + Laws.ShownText(Laws.PublishedEvents(reply.value)))
            && (r.Err? ==> assistant == assistant0) && (r.Err? && r.error.RuntimeFailed? ==> events == events0)
            && (r.Err? && !r.error.RuntimeFailed? ==> driver.nextId == old(driver.nextId) + 1)
            && (r.Err? && r.error.RuntimeFailed? ==> driver.nextId == old(driver.nextId))
            && (r.Ok? && !next.Terminal? ==>
                  driver.nextId == old(driver.nextId)
                                   + Written(old(machine.state), input, sid, turn.turnId, assistant0, now))
            && (if r.Ok? && next.Terminal? then TurnIs(driver, sid, EndedTurn(turn, next.receipt, assistant, now))
                else Speaking(driver, sid, turn, assistant))
    ensures Extends(old(driver.store.journal), driver.store.journal)
  {
    hide Extends, Speaking, TurnIs, ReceiptFor, AllClosed, ClosesAt, EndedTurn, FirstReceipt, InputOfTurn, Fits,
         FinalRecord, InputRecord, Laws.PublishedEvents, Laws.PersistedEvents, Laws.ShownText, R.RunStep;
    events, assistant := events0, assistant0;
    ExtendsSame(driver.store.journal);
    ghost var s := machine.state;
    EndsOwnTurn(s, input, sid, turn);
    StillLive(s, input, sid, turn);
    var reply := machine.Apply(input);
    if reply.Err? {
      return Err(RuntimeFailed(reply.error)), events, assistant;
    }
    var effects := reply.value;
    StepClosesAt(s, input);
    WritingPoint(s, input, sid, turn.turnId, assistant0, now);
    ghost var id := driver.nextId;
    ghost var record := InputRecord(s, input, sid, turn.turnId, assistant0, now);
    ghost var closed := ClosingIndex(effects, machine.state.Terminal?);
    var receipt := FirstReceipt(effects);
    NothingSeen();
    assert effects[..0] == [];
    for i := 0 to |effects|
      invariant (machine.state, reply) == R.RunStep(s, input)
      invariant Extends(old(driver.store.journal), driver.store.journal)
      invariant driver.store.machine == old(driver.store.machine) || fresh(driver.store.machine)
      invariant i == 0 || (machine.state.Terminal? && i <= closed) ==> driver.nextId == id && assistant == assistant0
      invariant i > 0 && !machine.state.Terminal? ==>
                  driver.nextId == id + Written(s, input, sid, turn.turnId, assistant0, now)
      invariant i > closed || (i > 0 && !machine.state.Terminal?) ==>
                  record.None? || Fits(driver.store.size, Envelope(id, record.value))
      invariant events == events0 + Laws.PublishedEvents(effects[..i])
      invariant assistant == assistant0 + Laws.ShownText(Laws.PersistedEvents(effects[..i]))
      invariant if i <= closed then Speaking(driver, sid, turn, assistant)
                else TurnIs(driver, sid, EndedTurn(turn, receipt.value, assistant, now))
    {
      OneMoreEffect(effects, i);
      WhichEffect(effects, closed, i);
      ghost var journal := driver.store.journal;
      match effects[i] {
        case Persist(VisibleText(delta)) =>
          var spoken := Speak(driver, sid, turn, assistant, delta, now);
          ExtendsTrans(old(driver.store.journal), journal, driver.store.journal);
          if spoken.Err? {
            assert spoken.error == RecordTooLarge;
            return Err(StoreFailed(spoken.error)), events, assistant0;
          }
          assistant := assistant + delta;
        case Persist(TurnEnded(_)) =>
          var ended := FinalizeTurn(driver, sid, turn, receipt.value, assistant, now);
          ExtendsTrans(old(driver.store.journal), journal, driver.store.journal);
          if ended.Err? {
            return Err(StoreFailed(ended.error)), events, assistant0;
          }
        case Publish(event) =>
          events := events + [event];
        case _ =>
      }
    }
    assert effects[..|effects|] == effects;
    r := Ok(());
  }

  lemma NothingSeen()
    ensures Laws.PublishedEvents([]) == [] && Laws.ShownText(Laws.PersistedEvents([])) == ""
  {
  }

  // ---------------------------------------------------------------- what an input writes

  /** The journal record that an input makes the driver write: its text, or the end of the turn. */
  ghost function InputRecord(s: R.RunState, input: R.RunInput, sid: SessionId, tid: TurnId, text: string, now: nat)
    : Option<JournalRecord>
  {
    var (next, reply) := R.RunStep(s, input);
    if reply.Err? || s.Terminal? then None
    else if next.Terminal? then Some(FinalRecord(sid, next.receipt, text, now))
    else if s.Running? && input.ProviderEvent? && input.event.TextDelta?
    then Some(TurnDelta(sid, tid, input.event.delta, now))
    else None
  }

  /** How many records an input writes. */
  ghost function Written(s: R.RunState, input: R.RunInput, sid: SessionId, tid: TurnId, text: string, now: nat): nat {
    if InputRecord(s, input, sid, tid, text, now).Some? then 1 else 0
  }

  ghost predicate InputFits(size: Sizes, s: R.RunState, input: R.RunInput, sid: SessionId, tid: TurnId, text: string,
                            id: nat, now: nat)
  {
    var record := InputRecord(s, input, sid, tid, text, now);
    record.None? || Fits(size, Envelope(id, record.value))
  }

  /** How feeding an input goes: the run machine may refuse it, and the journal its record. */
  ghost function InputReply(size: Sizes, s: R.RunState, input: R.RunInput, sid: SessionId, tid: TurnId, text: string,
                            id: nat, now: nat): Result<(), DriverError>
  {
    var reply := R.RunStep(s, input).1;
    if reply.Err? then Err(RuntimeFailed(reply.error))
    else if InputFits(size, s, input, sid, tid, text, id, now) then Ok(())
    else Err(StoreFailed(RecordTooLarge))
  }

  /** The one point at which an input is written. */
  lemma WritingPoint(s: R.RunState, input: R.RunInput, sid: SessionId, tid: TurnId, text: string, now: nat)
    requires !s.Terminal? && R.RunStep(s, input).1.Ok?
    ensures var (next, reply) := R.RunStep(s, input);
            var record := InputRecord(s, input, sid, tid, text, now);
            && (forall i :: 0 <= i < |reply.value| && reply.value[i].Persist? && reply.value[i].event.VisibleText? ==>
                  i == 0 && !next.Terminal? && record == Some(TurnDelta(sid, tid, reply.value[i].event.delta, now)))
            && (next.Terminal? ==> record == Some(FinalRecord(sid, next.receipt, text, now)))
            && (record.Some? && !next.Terminal? ==>
                  |reply.value| > 0 && reply.value[0].Persist? && reply.value[0].event.VisibleText?)
  {
    Outcomes.WritesOnce(s, input);
    hide R.RunStep;
  }

  lemma WhichEffect(effects: seq<R.RunEffect>, closed: nat, i: nat)
    requires ClosesAt(effects, closed) && i < |effects|
    ensures effects[i].Persist? && effects[i].event.TurnEnded? <==> i == closed
    ensures i >= closed ==> FirstReceipt(effects).Some?
    ensures i > closed ==> !effects[i].Persist?
  {
    if i >= closed {
      assert effects[i] == effects[closed..][i - closed];
    }
  }

  // ---------------------------------------------------------------- a run in step with its driver

  /** The driver has seen and stored exactly what the run showed. */
  ghost predicate InStep(s: R.RunState, events: seq<R.RuntimeEvent>, text: string, inputs: seq<R.RunInput>) {
    && Laws.RunAll(inputs).state == s
    && events == Laws.PublishedEvents(Laws.RunAll(inputs).effects)
    && text == Laws.ShownText(events)
  }

  /** The session's last turn is `turn`, ended with this receipt and text. */
  ghost predicate Ended(driver: Driver, sid: SessionId, turn: TurnRecord, receipt: TurnReceipt, text: string)
    reads driver, driver.store, driver.store.machine
  {
    exists at: nat :: TurnIs(driver, sid, EndedTurn(turn, receipt, text, at))
  }

  /** The run and the journal agree: a live run speaks for its own turn, a finished one has ended it. */
  ghost predicate Together(driver: Driver, sid: SessionId, turn: TurnRecord, s: R.RunState,
                           events: seq<R.RuntimeEvent>, text: string, inputs: seq<R.RunInput>)
    reads driver, driver.store, driver.store.machine
  {
    && InStep(s, events, text, inputs) && RunFits(s) && AllClosed(turn.tools)
    && if s.Terminal? then Ended(driver, sid, turn, s.receipt, text) && ReceiptFor(sid, turn, s.receipt)
       else Speaking(driver, sid, turn, text)
            && (R.Live(s) ==> Laws.IdsOf(s) == Some((sid, turn.turnId, turn.requestId)))
  }

  lemma TogetherIsSound(driver: Driver, sid: SessionId, turn: TurnRecord, s: R.RunState, events: seq<R.RuntimeEvent>,
                        text: string, inputs: seq<R.RunInput>)
    requires Together(driver, sid, turn, s, events, text, inputs)
    ensures Sound(driver)
  {
    hide LiveLog, RuntimeStore.Valid, InStep, RunFits;
  }

  lemma {:induction false} ShownConcat(a: seq<R.RuntimeEvent>, b: seq<R.RuntimeEvent>)
    ensures Laws.ShownText(a + b) == Laws.ShownText(a) + Laws.ShownText(b)
  {
    if b == [] {
      assert a + b == a;
      assert Laws.ShownText(a) + "" == Laws.ShownText(a);
    } else {
      assert (a + b)[..|a + b| - 1] == a + b[..|b| - 1];
      ShownConcat(a, b[..|b| - 1]);
    }
  }

  lemma InStepAfter(s: R.RunState, events: seq<R.RuntimeEvent>, text: string, inputs: seq<R.RunInput>,
                    input: R.RunInput)
    requires InStep(s, events, text, inputs)
    ensures var (next, reply) := R.RunStep(s, input);
            var shown := if reply.Ok? then Laws.PublishedEvents(reply.value) else [];
            InStep(next, events + shown, text + Laws.ShownText(shown), inputs + [input])
  {
    hide R.RunStep, Laws.PublishedEvents, Laws.ShownText;
    var (next, reply) := R.RunStep(s, input);
    var longer := inputs + [input];
    assert longer[..|inputs|] == inputs;
    var effects := if reply.Ok? then reply.value else [];
    Laws.PublishedConcat(Laws.RunAll(inputs).effects, effects);
    NothingSeen();
    ShownConcat(events, Laws.PublishedEvents(effects));
  }

  lemma RefusedGoesOn(s: R.RunState, input: R.RunInput)
    requires !s.Terminal?
    ensures var (next, reply) := R.RunStep(s, input);
            && (reply.Err? ==> !next.Terminal? && (s.Idle? <==> next.Idle?))
            && (R.Live(s) && R.Live(next) ==> Laws.IdsOf(next) == Laws.IdsOf(s))
  {
  }

  /** A run that was fed `inputs`, and whose next record has this id, is stopped by this input: the
      turn still runs, the journal holds the text that the run has shown, and what the input would
      have the driver write does not fit a line of the journal. */
  ghost predicate TooLarge(driver: Driver, sid: SessionId, tid: TurnId, inputs: seq<R.RunInput>, id: nat,
                           input: R.RunInput, now: nat)
    reads driver, driver.store, driver.store.machine
  {
    var run := Laws.RunAll(inputs);
    var text := Laws.ShownText(Laws.PublishedEvents(run.effects));
    && driver.Ready(sid) && driver.Turn(sid).turnId == tid && driver.nextId == id + 1
    && TextSoFar(driver.Turn(sid).assistantMessage, text)
    && !run.state.Terminal?
    && (R.Live(run.state) ==> Laws.IdsOf(run.state) == Some((sid, tid, driver.Turn(sid).requestId)))
    && R.RunStep(run.state, input).1.Ok?
    && !InputFits(driver.store.size, run.state, input, sid, tid, text, id, now)
  }

  lemma NowTooLarge(driver: Driver, sid: SessionId, turn: TurnRecord, s: R.RunState, events: seq<R.RuntimeEvent>,
                    text: string, inputs: seq<R.RunInput>, input: R.RunInput, id: nat, now: nat)
    requires Speaking(driver, sid, turn, text) && InStep(s, events, text, inputs) && !s.Terminal?
    requires R.Live(s) ==> Laws.IdsOf(s) == Some((sid, turn.turnId, turn.requestId))
    requires InputReply(driver.store.size, s, input, sid, turn.turnId, text, id, now)
               == Err(StoreFailed(RecordTooLarge))
    requires driver.nextId == id + 1
    ensures TooLarge(driver, sid, turn.turnId, inputs, id, input, now)
  {
    hide R.RunStep, InputFits;
  }

  /** One input, keeping run and journal together unless the journal refuses what it would write. */
  method Feed(driver: Driver, machine: R.RunMachine, input: R.RunInput, ghost sid: SessionId, ghost turn: TurnRecord,
              events0: seq<R.RuntimeEvent>, assistant0: string, now: nat, ghost inputs: seq<R.RunInput>)
    returns (r: Result<(), DriverError>, events: seq<R.RuntimeEvent>, assistant: string)
    requires Together(driver, sid, turn, machine.state, events0, assistant0, inputs)
    requires !machine.state.Terminal?
    requires machine.state.Idle? && input.Begin? ==>
               Laws.IdsOf(R.RunState.Running(input.request, None, [])) == Some((sid, turn.turnId, turn.requestId))
    modifies machine, driver`nextId, driver.store
    ensures driver.store.machine == old(driver.store.machine) || fresh(driver.store.machine)
    ensures machine.state == R.RunStep(old(machine.state), input).0
    ensures r == InputReply(driver.store.size, old(machine.state), input, sid, turn.turnId, assistant0,
                            old(driver.nextId), now)
    ensures if r.Err? && !r.error.RuntimeFailed? then
              Sound(driver) && TooLarge(driver, sid, turn.turnId, inputs, old(driver.nextId), input, now)
            else Together(driver, sid, turn, machine.state, events, assistant, inputs + [input])
    ensures r.Ok? && !machine.state.Terminal? ==>
              driver.nextId == old(driver.nextId)
                               + Written(old(machine.state), input, sid, turn.turnId, assistant0, now)
    ensures r.Err? && r.error.RuntimeFailed? ==> driver.nextId == old(driver.nextId)
    ensures Extends(old(driver.store.journal), driver.store.journal)
  {
    hide Extends, R.RunStep, InStep, RunFits, AllClosed, Speaking, TurnIs, TooLarge, InputFits, Laws.PublishedEvents,
         Laws.ShownText, EndedTurn;
    ghost var s := machine.state;
    RunStepFits(s, input);
    InStepAfter(s, events0, assistant0, inputs, input);
    RefusedGoesOn(s, input);
    if s.Idle? {
      BeginKeepsIds(s, input);
    } else {
      EndsOwnTurn(s, input, sid, turn);
    }
    NothingSeen();
    ghost var id := driver.nextId;
    r, events, assistant := ApplyInput(driver, machine, input, sid, turn, events0, assistant0, now);
    assert assistant0 + "" == assistant0 && events0 + [] == events0;
    if r.Err? && !r.error.RuntimeFailed? {
      NowTooLarge(driver, sid, turn, s, events0, assistant0, inputs, input, id, now);
      SpeakingIsSound(driver, sid, turn, assistant0);
    }
  }

  lemma SpeakingIsSound(driver: Driver, sid: SessionId, turn: TurnRecord, text: string)
    requires Speaking(driver, sid, turn, text)
    ensures Sound(driver)
  {
    hide LiveLog, RuntimeStore.Valid;
  }

  lemma BeginKeepsIds(s: R.RunState, input: R.RunInput)
    requires s.Idle?
    ensures var next := R.RunStep(s, input).0;
            && !next.Terminal?
            && (R.Live(next) ==> input.Begin? && next == R.RunState.Running(input.request, None, []))
  {
  }

  // ---------------------------------------------------------------- one provider round

  /** What the outside world decides about one round: a cancellation before it, the clock, the
      provider's events and how its stream ended, and each tool call's fate. */
  datatype Round = Round(cancelled: bool, now: nat, events: seq<R.StreamEvent>, failure: Option<Failure>,
                         tools: nat -> ToolOracle)

  predicate BadCall(code: RuntimeErrorCode) { code == ProtocolMalformedJson || code == ToolUnavailable }

  /** The input that closes a stream which did not end the run itself. */
  function StreamClose(failure: Option<Failure>): R.RunInput {
    if failure.None? then R.ProviderEof
    else if failure.value.code == Interrupted then R.Cancel
    else R.ProviderFailed(failure.value)
  }

  lemma {:induction false} CollectRefusals(tools: seq<ToolDefinition>, pending: seq<ToolInvocation>,
                                           fragments: seq<R.Fragment>)
    ensures var reply := R.Collect(tools, pending, fragments).1;
            reply.Err? ==> BadCall(reply.error)
    decreases fragments
  {
    if fragments != [] {
      var inv := R.InvocationFrom(tools, pending, fragments[0]);
      if inv.Ok? {
        CollectRefusals(tools, pending + [inv.value], fragments[1..]);
      }
    }
  }

  /** The pending calls after one event. */
  function NextPending(tools: seq<ToolDefinition>, pending: seq<ToolInvocation>,
                       event: R.StreamEvent): seq<ToolInvocation> {
    if event.CallFragments? then R.Collect(tools, pending, event.fragments).0 else pending
  }

  /** The calls that a round's events have asked for. */
  function Pending(tools: seq<ToolDefinition>, events: seq<R.StreamEvent>): seq<ToolInvocation> {
    if events == [] then []
    else NextPending(tools, Pending(tools, events[..|events| - 1]), events[|events| - 1])
  }

  /** Where a stream ends: at its first stream end, or after its last event. */
  function FirstEnd(events: seq<R.StreamEvent>): (i: nat)
    ensures i <= |events|
  {
    if events == [] || events[0].StreamEnd? then 0 else 1 + FirstEnd(events[1..])
  }

  /** The event asks for a call that it may not ask for. */
  predicate BadlyAsked(tools: seq<ToolDefinition>, events: seq<R.StreamEvent>, i: nat)
    requires i < |events|
  {
    && events[i].CallFragments? && tools != []
    && R.Collect(tools, Pending(tools, events[..i]), events[i].fragments).1.Err?
  }

  /** No event before the `i`-th ends the stream or asks badly. */
  predicate Flows(tools: seq<ToolDefinition>, events: seq<R.StreamEvent>, i: nat)
    requires i <= |events|
  {
    forall k :: 0 <= k < i ==> !events[k].StreamEnd? && !BadlyAsked(tools, events, k)
  }

  /** The calls that a round asks for: those pending when its stream completes. */
  function CallsAsked(tools: seq<ToolDefinition>, round: Round): seq<ToolInvocation> {
    var i := FirstEnd(round.events);
    if i < |round.events| && round.events[i] == R.StreamEnd(R.StreamCompleted) && Flows(tools, round.events, i)
    then Pending(tools, round.events[..i]) else []
  }

  /** The first bad call of the round, and how it is refused. */
  ghost predicate RefusedFor(tools: seq<ToolDefinition>, round: Round, code: RuntimeErrorCode) {
    exists i :: 0 <= i < |round.events| && Flows(tools, round.events, i) && BadlyAsked(tools, round.events, i)
                && R.Collect(tools, Pending(tools, round.events[..i]), round.events[i].fragments).1 == Err(code)
  }

  /** The `i`-th input of a round: an event of its stream, or what closes the stream after them all. */
  function InputAt(round: Round, i: nat): R.RunInput {
    if i < |round.events| then R.ProviderEvent(round.events[i]) else StreamClose(round.failure)
  }

  function EventInputs(events: seq<R.StreamEvent>): seq<R.RunInput> {
    seq(|events|, i requires 0 <= i < |events| => R.ProviderEvent(events[i]))
  }

  /** How many of the events are text. */
  function Deltas(events: seq<R.StreamEvent>): nat {
    if events == [] then 0 else Deltas(events[..|events| - 1]) + if events[|events| - 1].TextDelta? then 1 else 0
  }

  /** What an input of the round would write does not fit. */
  ghost predicate RoundTooLarge(driver: Driver, sid: SessionId, tid: TurnId, tools: seq<ToolDefinition>, round: Round,
                                inputs: seq<R.RunInput>, id: nat)
    reads driver, driver.store, driver.store.machine
  {
    exists i :: 0 <= i <= |round.events| && Flows(tools, round.events, i)
                && TooLarge(driver, sid, tid, inputs + EventInputs(round.events[..i]), id + Deltas(round.events[..i]),
                            InputAt(round, i), round.now)
  }

  lemma {:induction false} FirstEndIs(events: seq<R.StreamEvent>, i: nat)
    requires i < |events| && events[i].StreamEnd?
    requires forall k :: 0 <= k < i ==> !events[k].StreamEnd?
    ensures FirstEnd(events) == i
  {
    if i > 0 {
      assert !events[0].StreamEnd?;
      FirstEndIs(events[1..], i - 1);
    }
  }

  /** A run that was fed `inputs` is ended by this input, with a receipt that says how. */
  ghost predicate EndedHere(inputs: seq<R.RunInput>, input: R.RunInput, receipt: TurnReceipt) {
    && !Laws.RunAll(inputs).state.Terminal? && Laws.RunAll(inputs + [input]).state == R.RunState.Terminal(receipt)
    && Outcomes.SaysHow(input, receipt.outcome)
  }

  /** How a run ends whose stream ended by itself, or broke: early, interrupted, or with that failure. */
  ghost predicate FailureSays(failure: Option<Failure>, outcome: Outcome) {
    if failure.None? then outcome == FailedWith(Failure.Failure(ProtocolPrematureEof, None))
    else if failure.value.code == Interrupted then outcome == WasInterrupted
    else outcome == FailedWith(failure.value)
  }

  /** An input of the round ended the run: an event of its stream, or what came of the stream after them all. */
  ghost predicate RoundEnded(tools: seq<ToolDefinition>, round: Round, inputs: seq<R.RunInput>, receipt: TurnReceipt) {
    exists i :: 0 <= i <= |round.events| && Flows(tools, round.events, i)
                && EndedHere(inputs + EventInputs(round.events[..i]), InputAt(round, i), receipt)
                && (i == |round.events| ==> FailureSays(round.failure, receipt.outcome))
  }

  lemma EndsHere(driver: Driver, sid: SessionId, turn: TurnRecord, s: R.RunState, events: seq<R.RuntimeEvent>,
                 text: string, inputs: seq<R.RunInput>, input: R.RunInput)
    requires Together(driver, sid, turn, s, events, text, inputs) && !s.Terminal?
    ensures var next := R.RunStep(s, input).0; next.Terminal? ==> EndedHere(inputs, input, next.receipt)
  {
    hide R.RunStep, Outcomes.SaysHow, Laws.PublishedEvents, Laws.ShownText, Speaking, RunFits;
    if R.RunStep(s, input).0.Terminal? {
      Outcomes.EndSaysHow(s, input);
      assert (inputs + [input])[..|inputs|] == inputs;
    }
  }

  lemma NowRoundEnded(tools: seq<ToolDefinition>, round: Round, inputs: seq<R.RunInput>, i: nat, receipt: TurnReceipt)
    requires i <= |round.events| && Flows(tools, round.events, i)
    requires EndedHere(inputs + EventInputs(round.events[..i]), InputAt(round, i), receipt)
    ensures RoundEnded(tools, round, inputs, receipt)
  {
    CloseSays(round, i, inputs + EventInputs(round.events[..i]), receipt);
    hide EndedHere, Flows, InputAt, EventInputs;
  }

  lemma CloseSays(round: Round, i: nat, inputs: seq<R.RunInput>, receipt: TurnReceipt)
    requires i <= |round.events| && EndedHere(inputs, InputAt(round, i), receipt)
    ensures i == |round.events| ==> FailureSays(round.failure, receipt.outcome)
  {
    hide Laws.RunAll;
  }

  lemma MoreEvents(tools: seq<ToolDefinition>, round: Round, i: nat)
    requires i < |round.events|
    ensures var before, after := round.events[..i], round.events[..i + 1];
            && Pending(tools, after) == NextPending(tools, Pending(tools, before), round.events[i])
            && EventInputs(after) == EventInputs(before) + [R.ProviderEvent(round.events[i])]
            && Deltas(after) == Deltas(before) + if round.events[i].TextDelta? then 1 else 0
  {
    assert round.events[..i + 1][..i] == round.events[..i];
  }

  lemma StreamEndsAt(tools: seq<ToolDefinition>, round: Round, i: nat)
    requires i < |round.events| && Flows(tools, round.events, i) && round.events[i] == R.StreamEnd(R.StreamCompleted)
    ensures FirstEnd(round.events) == i && CallsAsked(tools, round) == Pending(tools, round.events[..i])
  {
    FirstEndIs(round.events, i);
  }

  lemma NowRoundTooLarge(driver: Driver, sid: SessionId, tid: TurnId, tools: seq<ToolDefinition>, round: Round,
                         inputs: seq<R.RunInput>, id: nat, i: nat)
    requires i <= |round.events| && Flows(tools, round.events, i)
    requires TooLarge(driver, sid, tid, inputs + EventInputs(round.events[..i]), id + Deltas(round.events[..i]),
                      InputAt(round, i), round.now)
    ensures RoundTooLarge(driver, sid, tid, tools, round, inputs, id)
  {
    hide TooLarge, Flows, InputAt, EventInputs, Deltas;
  }

  lemma NowRefusedFor(tools: seq<ToolDefinition>, round: Round, i: nat, code: RuntimeErrorCode)
    requires i < |round.events| && Flows(tools, round.events, i) && round.events[i].CallFragments? && tools != []
    requires R.Collect(tools, Pending(tools, round.events[..i]), round.events[i].fragments).1 == Err(code)
    ensures RefusedFor(tools, round, code)
  {
    hide Flows, Pending, R.Collect;
  }

  lemma FlowsOn(tools: seq<ToolDefinition>, events: seq<R.StreamEvent>, i: nat)
    requires i < |events| && Flows(tools, events, i)
    requires !events[i].StreamEnd? && !BadlyAsked(tools, events, i)
    ensures Flows(tools, events, i + 1)
  {
    hide BadlyAsked;
  }

  /** A provider event keeps the request; only a bad call is refused. */
  lemma EventStep(s: R.RunState, event: R.StreamEvent)
    requires s.Running?
    ensures var (next, reply) := R.RunStep(s, R.ProviderEvent(event));
            && (R.Live(next) ==> next.request == s.request)
            && !next.Idle?
            && (reply.Err? ==> BadCall(reply.error) && event.CallFragments? && s.request.tools != []
                               && R.Collect(s.request.tools, s.pending, event.fragments).1 == Err(reply.error))
            && (reply.Ok? && event.CallFragments? && s.request.tools != [] ==>
                  R.Collect(s.request.tools, s.pending, event.fragments).1.Ok?)
            && (next.Running? ==> next.pending == NextPending(s.request.tools, s.pending, event) && !event.StreamEnd?)
            && (next.AwaitingTools? ==> next.invocations == s.pending != [] && event == R.StreamEnd(R.StreamCompleted))
  {
    if event.CallFragments? {
      CollectRefusals(s.request.tools, s.pending, event.fragments);
    }
  }

  /** Only text is written before the run ends. */
  lemma EventWrites(s: R.RunState, event: R.StreamEvent, sid: SessionId, tid: TurnId, text: string, now: nat)
    requires s.Running?
    ensures var input := R.ProviderEvent(event);
            var (next, reply) := R.RunStep(s, input);
            reply.Ok? && !next.Terminal? ==>
              Written(s, input, sid, tid, text, now) == if event.TextDelta? then 1 else 0
  {
    hide R.RunStep;
  }

  lemma CloseStep(s: R.RunState, failure: Option<Failure>)
    requires s.Running?
    ensures R.RunStep(s, StreamClose(failure)).0.Terminal? && R.RunStep(s, StreamClose(failure)).1.Ok?
  {
  }

  /** Feeds the provider's events while the run takes them; afterwards it is never running. It stops
      early only for a badly asked call or a record that does not fit. */
  method StreamRound(driver: Driver, machine: R.RunMachine, round: Round, ghost sid: SessionId, ghost turn: TurnRecord,
                     events0: seq<R.RuntimeEvent>, assistant0: string, ghost inputs0: seq<R.RunInput>)
    returns (r: Result<(), DriverError>, events: seq<R.RuntimeEvent>, assistant: string, ghost inputs: seq<R.RunInput>)
    requires Together(driver, sid, turn, machine.state, events0, assistant0, inputs0)
    requires machine.state.Running? && machine.state.pending == []
    modifies machine, driver`nextId, driver.store
    ensures driver.store.machine == old(driver.store.machine) || fresh(driver.store.machine)
    ensures Sound(driver)
    ensures r.Ok? ==> Together(driver, sid, turn, machine.state, events, assistant, inputs)
    ensures r.Ok? ==> machine.state.Terminal? || machine.state.AwaitingTools?
    ensures R.Live(machine.state) ==> machine.state.request == old(machine.state.request)
    ensures r.Ok? && machine.state.AwaitingTools? ==>
              && machine.state.invocations == CallsAsked(old(machine.state).request.tools, round) != []
              && inputs == inputs0 + EventInputs(Streamed(round))
              && driver.nextId == old(driver.nextId) + Deltas(Streamed(round))
    ensures r.Ok? && machine.state.Terminal? ==>
              RoundEnded(old(machine.state).request.tools, round, inputs0, machine.state.receipt)
    ensures r.Err? ==>
              var tools := old(machine.state).request.tools;
              if r.error.RuntimeFailed? then BadCall(r.error.code) && RefusedFor(tools, round, r.error.code)
              else r.error == StoreFailed(RecordTooLarge)
                   && RoundTooLarge(driver, sid, turn.turnId, tools, round, inputs0, old(driver.nextId))
    ensures Extends(old(driver.store.journal), driver.store.journal)
  {
    hide Extends, Together, R.RunStep, BadCall, StreamClose, TooLarge, Sound, Pending, NextPending, InputFits, Written;
    hide Flows, CallsAsked, RefusedFor, RoundTooLarge, RoundEnded, EndedHere, EventInputs, Deltas, R.Collect,
         Laws.IdsOf, FirstEnd;
    ghost var tools := machine.state.request.tools;
    ghost var id := driver.nextId;
    ExtendsSame(driver.store.journal);
    events, assistant, inputs := events0, assistant0, inputs0;
    r := Ok(());
    var i := 0;
    NothingStreamed(tools, round);
    assert inputs0 + [] == inputs0;
    TogetherIsSound(driver, sid, turn, machine.state, events, assistant, inputs);
    while i < |round.events| && machine.state.Running?
      invariant 0 <= i <= |round.events| && Sound(driver)
      invariant driver.store.machine == old(driver.store.machine) || fresh(driver.store.machine)
      invariant Together(driver, sid, turn, machine.state, events, assistant, inputs)
      invariant R.Live(machine.state) ==> machine.state.request == old(machine.state.request)
      invariant !machine.state.Idle? && Extends(old(driver.store.journal), driver.store.journal)
      invariant !machine.state.Terminal? ==>
                  inputs == inputs0 + EventInputs(round.events[..i]) && driver.nextId == id + Deltas(round.events[..i])
      invariant machine.state.Running? ==>
                  machine.state.pending == Pending(tools, round.events[..i]) && Flows(tools, round.events, i)
      invariant machine.state.AwaitingTools? ==>
                  machine.state.invocations == CallsAsked(tools, round) != [] && Streamed(round) == round.events[..i]
      invariant machine.state.Terminal? ==> RoundEnded(tools, round, inputs0, machine.state.receipt)
    {
      ghost var journal := driver.store.journal;
      ghost var input := R.ProviderEvent(round.events[i]);
      EventStep(machine.state, round.events[i]);
      EventWrites(machine.state, round.events[i], sid, turn.turnId, assistant, round.now);
      MoreEvents(tools, round, i);
      assert inputs0 + (EventInputs(round.events[..i]) + [input]) == inputs + [input];
      EndsHere(driver, sid, turn, machine.state, events, assistant, inputs, input);
      r, events, assistant := Feed(driver, machine, R.ProviderEvent(round.events[i]), sid, turn, events, assistant,
                                   round.now, inputs);
      ExtendsTrans(old(driver.store.journal), journal, driver.store.journal);
      if r.Ok? || r.error.RuntimeFailed? {
        TogetherIsSound(driver, sid, turn, machine.state, events, assistant, inputs + [input]);
      }
      if r.Err? {
        if r.error.RuntimeFailed? {
          NowRefusedFor(tools, round, i, r.error.code);
        } else {
          NowRoundTooLarge(driver, sid, turn.turnId, tools, round, inputs0, id, i);
        }
        return;
      }
      inputs := inputs + [input];
      if machine.state.AwaitingTools? {
        StreamEndsAt(tools, round, i);
      } else if machine.state.Running? {
        FlowsOn(tools, round.events, i);
      } else {
        NowRoundEnded(tools, round, inputs0, i, machine.state.receipt);
      }
      i := i + 1;
    }
    if machine.state.Running? {
      CloseStep(machine.state, round.failure);
      EndsHere(driver, sid, turn, machine.state, events, assistant, inputs, StreamClose(round.failure));
      ghost var journal := driver.store.journal;
      r, events, assistant := Feed(driver, machine, StreamClose(round.failure), sid, turn, events, assistant,
                                   round.now, inputs);
      ExtendsTrans(old(driver.store.journal), journal, driver.store.journal);
      if r.Ok? {
        NowRoundEnded(tools, round, inputs0, i, machine.state.receipt);
        inputs := inputs + [StreamClose(round.failure)];
        TogetherIsSound(driver, sid, turn, machine.state, events, assistant, inputs);
      } else {
        NowRoundTooLarge(driver, sid, turn.turnId, tools, round, inputs0, id, i);
      }
    } else {
      r := Ok(());
    }
  }

  /** What the run takes of a stream that completes. */
  function Streamed(round: Round): seq<R.StreamEvent> {
    var i := FirstEnd(round.events);
    if i < |round.events| then round.events[..i + 1] else round.events
  }

  lemma NothingStreamed(tools: seq<ToolDefinition>, round: Round)
    ensures Pending(tools, round.events[..0]) == [] && EventInputs(round.events[..0]) == []
    ensures Deltas(round.events[..0]) == 0 && Flows(tools, round.events, 0)
  {
  }

  // ---------------------------------------------------------------- one round of tools

  /** Every call the turn has journaled is in the registry. */
  ghost predicate Registered(tools: seq<ToolRecord>, ids: set<CallId>) {
    forall k :: 0 <= k < |tools| ==> tools[k].invocation.call.callId in ids
  }

  function IdsIn(invs: seq<ToolInvocation>): set<CallId> {
    set k | 0 <= k < |invs| :: invs[k].call.callId
  }

  /** The turn's tools are the earlier ones, then these calls, each closed with its result. */
  ghost predicate ToolsAfter(tools: seq<ToolRecord>, before: seq<ToolRecord>, invs: seq<ToolInvocation>,
                             results: seq<ToolResult>)
  {
    && |tools| == |before| + |results| && |results| <= |invs|
    && tools[..|before|] == before
    && forall k :: 0 <= k < |results| ==>
         var t := tools[|before| + k];
         t.invocation == invs[k] && t.terminal == Some(results[k]) && Answering(invs[k], results[k])
  }

  lemma ToolsAfterNext(tools: seq<ToolRecord>, before: seq<ToolRecord>, invs: seq<ToolInvocation>,
                       results: seq<ToolResult>, next: seq<ToolRecord>, p: Progress, ids: set<CallId>)
    requires ToolsAfter(tools, before, invs, results) && |results| < |invs|
    requires CallAt(next, tools, invs[|results|], p) && p.Progress? && p.terminal.Some?
    requires Answering(invs[|results|], p.terminal.value)
    requires AllClosed(tools) && Registered(tools, ids)
    ensures ToolsAfter(next, before, invs, results + [p.terminal.value])
    ensures AllClosed(next) && Registered(next, ids + {invs[|results|].call.callId})
  {
    assert forall k :: 0 <= k < |tools| ==> next[k] == tools[k] by {
      assert forall k :: 0 <= k < |tools| ==> next[k] == next[..|tools|][k];
    }
  }

  /** Where a turn's calls are journaled, and under which mode they are decided. */
  datatype Setting = Setting(size: Sizes, sid: SessionId, tid: TurnId, mode: PermissionMode)

  /** What one call leaves: its result, what has been spent, and the next record id. */
  datatype CallDone = CallDone(result: ToolResult, spent: Spending, id: nat)

  /** What a round of calls leaves. */
  datatype CallsDone = CallsDone(results: seq<ToolResult>, spent: Spending, id: nat)

  /** How one call goes: it fails exactly when its id was used before or it is blocked. */
  ghost function CallOutcome(g: Setting, inv: ToolInvocation, o: ToolOracle, now: nat, ids: set<CallId>, b: Spending,
                             id: nat): Result<CallDone, DriverError>
    requires inv.call.Valid()
  {
    var v := CallVerdict(inv, g.mode, o, b);
    if inv.call.callId in ids then Err(InvocationFailed(DuplicateCallId))
    else if Blocked(g.size, g.sid, g.tid, inv, v, id, now)
    then Err(BlockedError(g.size, g.sid, g.tid, inv, v, id, now))
    else
      VerdictAnswers(inv, g.mode, o, b);
      Ok(CallDone(v.final.terminal.value, v.spent, id + |Told(inv, v.final)|))
  }

  /** How the calls from the `i`-th on go, after those done: the first that cannot go decides the error. */
  ghost function CallsOutcome(g: Setting, invs: seq<ToolInvocation>, round: Round, ids: set<CallId>, done: CallsDone,
                              i: nat): Result<CallsDone, DriverError>
    requires i <= |invs| && AllValid(invs)
    decreases |invs| - i
  {
    if i == |invs| then Ok(done) else
    var next := CallOutcome(g, invs[i], round.tools(i), round.now, ids, done.spent, done.id);
    if next.Err? then Err(next.error)
    else
      CallsOutcome(g, invs, round, ids + {invs[i].call.callId},
                   CallsDone(done.results + [next.value.result], next.value.spent, next.value.id), i + 1)
  }

  lemma NextCall(g: Setting, invs: seq<ToolInvocation>, round: Round, ids: set<CallId>, done: CallsDone, i: nat)
    requires i < |invs| && AllValid(invs)
    ensures var next := CallOutcome(g, invs[i], round.tools(i), round.now, ids, done.spent, done.id);
            CallsOutcome(g, invs, round, ids, done, i)
            == if next.Err? then Err(next.error)
               else
                 CallsOutcome(g, invs, round, ids + {invs[i].call.callId},
                              CallsDone(done.results + [next.value.result], next.value.spent, next.value.id), i + 1)
  {
    hide CallOutcome;
  }

  lemma AllDone(g: Setting, invs: seq<ToolInvocation>, round: Round, ids: set<CallId>, done: CallsDone)
    requires AllValid(invs)
    ensures CallsOutcome(g, invs, round, ids, done, |invs|) == Ok(done)
  {
  }

  ghost predicate AllValid(invs: seq<ToolInvocation>) {
    forall k :: 0 <= k < |invs| ==> invs[k].call.Valid()
  }

  /** Registers and completes one call. */
  method RunCall(driver: Driver, ghost sid: SessionId, inv: ToolInvocation, registry: InvocationRegistry,
                 budget: AgentBudget, mode: PermissionMode, o: ToolOracle, now: nat)
    returns (r: Result<ToolResult, DriverError>)
    requires driver.Ready(sid) && budget.Valid() && inv.call.Valid()
    requires AllClosed(driver.Turn(sid).tools) && Registered(driver.Turn(sid).tools, registry.callIds)
    modifies driver, driver.store, budget, registry
    ensures driver.store.machine == old(driver.store.machine) || fresh(driver.store.machine)
    ensures driver.Ready(sid) && budget.Valid() && budget.providerRounds == old(budget.providerRounds)
    ensures |driver.executions| - old(|driver.executions|) <= budget.toolCalls - old(budget.toolCalls)
    ensures var g := Setting(driver.store.size, sid, old(driver.Turn(sid)).turnId, mode);
            var goes := CallOutcome(g, inv, o, now, old(registry.callIds), old(driver.Spent(budget)),
                                    old(driver.nextId));
            if r.Ok? then goes == Ok(CallDone(r.value, driver.Spent(budget), driver.nextId))
            else goes == Err(r.error) && !r.error.RuntimeFailed?
    ensures r.Ok? ==>
              && driver.Turn(sid) == old(driver.Turn(sid)).(tools := driver.Turn(sid).tools)
              && ToolsAfter(driver.Turn(sid).tools, old(driver.Turn(sid).tools), [inv], [r.value])
              && AllClosed(driver.Turn(sid).tools) && Registered(driver.Turn(sid).tools, registry.callIds)
              && registry.callIds == old(registry.callIds) + {inv.call.callId}
              && inv.call.callId !in old(registry.callIds)
    ensures Extends(old(driver.store.journal), driver.store.journal)
  {
    hide Extends, CallVerdict, CallAt, RanAfterStart, ToolsAfter, Answering, LiveLog, RuntimeStore.Valid, Told, LogFits,
         CallRecords, BlockedError;
    ExtendsSame(driver.store.journal);
    ghost var tools := driver.Turn(sid).tools;
    ghost var ids := registry.callIds;
    var error := registry.Register(inv);
    if error.Some? {
      return Err(InvocationFailed(error.value));
    }
    ghost var v := CallVerdict(inv, mode, o, driver.Spent(budget));
    VerdictAnswers(inv, mode, o, driver.Spent(budget));
    r := driver.CompleteInvocation(sid, inv, mode, budget, o, now);
    if r.Ok? {
      NoToolsAfter(tools, [inv]);
      ToolsAfterNext(tools, tools, [inv], [], driver.Turn(sid).tools, v.final, ids);
      assert [] + [r.value] == [r.value];
    }
  }

  lemma ToolsAfterMore(tools: seq<ToolRecord>, before: seq<ToolRecord>, invs: seq<ToolInvocation>,
                       results: seq<ToolResult>, next: seq<ToolRecord>, result: ToolResult)
    requires ToolsAfter(tools, before, invs, results) && |results| < |invs|
    requires ToolsAfter(next, tools, [invs[|results|]], [result])
    ensures ToolsAfter(next, before, invs, results + [result])
  {
    assert forall k :: 0 <= k < |tools| ==> next[k] == tools[k] by {
      assert forall k :: 0 <= k < |tools| ==> next[k] == next[..|tools|][k];
    }
    assert next[|tools| + 0].terminal == Some([result][0]);
  }

  /** Registers and completes the calls one by one. Each result returned is the one the journal
      holds, and every execution is paid for by one tool call. */
  method RunCalls(driver: Driver, ghost sid: SessionId, invs: seq<ToolInvocation>, registry: InvocationRegistry,
                  budget: AgentBudget, mode: PermissionMode, round: Round)
    returns (r: Result<seq<ToolResult>, DriverError>)
    requires driver.Ready(sid) && budget.Valid() && AllValid(invs)
    requires AllClosed(driver.Turn(sid).tools) && Registered(driver.Turn(sid).tools, registry.callIds)
    modifies driver, driver.store, budget, registry
    ensures driver.store.machine == old(driver.store.machine) || fresh(driver.store.machine)
    ensures driver.Ready(sid) && budget.Valid() && budget.providerRounds == old(budget.providerRounds)
    ensures |driver.executions| - old(|driver.executions|) <= budget.toolCalls - old(budget.toolCalls)
    ensures var g := Setting(driver.store.size, sid, old(driver.Turn(sid)).turnId, mode);
            var goes := CallsOutcome(g, invs, round, old(registry.callIds),
                                     CallsDone([], old(driver.Spent(budget)), old(driver.nextId)), 0);
            if r.Ok? then goes == Ok(CallsDone(r.value, driver.Spent(budget), driver.nextId))
            else goes == Err(r.error) && !r.error.RuntimeFailed?
    ensures r.Ok? ==>
              var turn := driver.Turn(sid);
              && turn == old(driver.Turn(sid)).(tools := turn.tools)
              && |r.value| == |invs| && ToolsAfter(turn.tools, old(driver.Turn(sid).tools), invs, r.value)
              && AllClosed(turn.tools) && Registered(turn.tools, registry.callIds)
              && registry.callIds == old(registry.callIds) + IdsIn(invs)
              && (forall k :: 0 <= k < |invs| ==> invs[k].call.callId !in old(registry.callIds))
    ensures Extends(old(driver.store.journal), driver.store.journal)
  {
    hide Extends, ToolsAfter, AllClosed, Registered, AgentBudget.Valid, LiveLog, RuntimeStore.Valid, CallOutcome,
         CallsOutcome;
    ghost var g := Setting(driver.store.size, sid, driver.Turn(sid).turnId, mode);
    ghost var goes := CallsOutcome(g, invs, round, registry.callIds,
                                   CallsDone([], driver.Spent(budget), driver.nextId), 0);
    ExtendsSame(driver.store.journal);
    ghost var before := driver.Turn(sid).tools;
    var results := [];
    NoToolsAfter(before, invs);
    for i := 0 to |invs|
      invariant driver.store.machine == old(driver.store.machine) || fresh(driver.store.machine)
      invariant driver.Ready(sid) && budget.Valid() && budget.providerRounds == old(budget.providerRounds)
      invariant |driver.executions| - old(|driver.executions|) <= budget.toolCalls - old(budget.toolCalls)
      invariant driver.Turn(sid) == old(driver.Turn(sid)).(tools := driver.Turn(sid).tools)
      invariant Extends(old(driver.store.journal), driver.store.journal)
      invariant goes == CallsOutcome(g, invs, round, registry.callIds,
                                     CallsDone(results, driver.Spent(budget), driver.nextId), i)
      invariant driver.Turn(sid).turnId == g.tid
      invariant |results| == i && ToolsAfter(driver.Turn(sid).tools, before, invs, results)
      invariant AllClosed(driver.Turn(sid).tools) && Registered(driver.Turn(sid).tools, registry.callIds)
      invariant registry.callIds == old(registry.callIds) + IdsIn(invs[..i])
      invariant forall k :: 0 <= k < i ==> invs[k].call.callId !in old(registry.callIds)
    {
      ghost var tools := driver.Turn(sid).tools;
      ghost var journal := driver.store.journal;
      NextCall(g, invs, round, registry.callIds, CallsDone(results, driver.Spent(budget), driver.nextId), i);
      var done := RunCall(driver, sid, invs[i], registry, budget, mode, round.tools(i), round.now);
      ExtendsTrans(old(driver.store.journal), journal, driver.store.journal);
      if done.Err? {
        return Err(done.error);
      }
      ToolsAfterMore(tools, before, invs, results, driver.Turn(sid).tools, done.value);
      results := results + [done.value];
      assert IdsIn(invs[..i + 1]) == IdsIn(invs[..i]) + {invs[i].call.callId};
    }
    assert invs[..|invs|] == invs;
    AllDone(g, invs, round, registry.callIds, CallsDone(results, driver.Spent(budget), driver.nextId));
    return Ok(results);
  }

  lemma NoToolsAfter(before: seq<ToolRecord>, invs: seq<ToolInvocation>)
    ensures ToolsAfter(before, before, invs, [])
  {
  }

  /** The call ids of a conversation. */
  function UsedIds(messages: seq<ConversationItem>): set<CallId> {
    set id | id in CallIds(CallsOf(messages))
  }

  /** The conversation, the results reported and the journaled tools tell the same story, and exactly
      the call ids in it are registered. */
  ghost predicate Conversing(turn: TurnRecord, ids: set<CallId>, messages: seq<ConversationItem>,
                             definitions: seq<ToolDefinition>, results: seq<ToolResult>)
  {
    && Answered(messages, definitions) && ResultsOf(messages) == results
    && ids == UsedIds(messages)
    && Registered(turn.tools, ids) && Recorded(turn.tools, results)
  }

  /** The journaled tools are closed with these results, in order. */
  ghost predicate Recorded(tools: seq<ToolRecord>, results: seq<ToolResult>) {
    |tools| == |results| && forall k :: 0 <= k < |tools| ==> tools[k].terminal == Some(results[k])
  }

  lemma RecordedAfter(tools: seq<ToolRecord>, before: seq<ToolRecord>, invs: seq<ToolInvocation>,
                      earlier: seq<ToolResult>, results: seq<ToolResult>)
    requires Recorded(before, earlier) && ToolsAfter(tools, before, invs, results)
    ensures Recorded(tools, earlier + results)
  {
    forall k | 0 <= k < |tools| ensures tools[k].terminal == Some((earlier + results)[k]) {
      if k < |before| {
        assert tools[k] == tools[..|before|][k];
      } else {
        assert tools[|before| + (k - |before|)].terminal == Some(results[k - |before|]);
      }
    }
  }

  lemma ConversingAfter(turn: TurnRecord, turn': TurnRecord, ids: set<CallId>, ids': set<CallId>,
                        messages: seq<ConversationItem>, definitions: seq<ToolDefinition>,
                        results: seq<ToolResult>, invs: seq<ToolInvocation>, answers: seq<ToolResult>)
    requires Conversing(turn, ids, messages, definitions, results)
    requires CallsFit(definitions, invs) && invs != [] && |answers| == |invs|
    requires ToolsAfter(turn'.tools, turn.tools, invs, answers)
    requires forall k :: 0 <= k < |invs| ==> invs[k].call.callId !in ids
    requires ids' == ids + IdsIn(invs) && Registered(turn'.tools, ids')
    ensures Conversing(turn', ids', messages + Batch(invs, answers), definitions, results + answers)
    ensures forall k :: 0 <= k < |invs| ==>
              R.HasResultFor(messages + Batch(invs, answers), invs[k].call.callId)
  {
    hide CallsFit, Registered, AnsweredTo, CallsOf, ResultsOf, Answering, ToolsAfter, Recorded, Batch, R.HasResultFor,
         CallsIn, IdsIn, CallIds;
    RecordedAfter(turn'.tools, turn.tools, invs, results, answers);
    AnswersOf(turn'.tools, turn.tools, invs, answers);
    BatchKeepsAnswered(messages, definitions, invs, answers);
    forall k | 0 <= k < |invs| ensures R.HasResultFor(messages + Batch(invs, answers), invs[k].call.callId) {
      BatchHasResult(messages, invs, answers, k);
    }
    BatchUsesIds(messages, invs, answers);
  }

  lemma AnswersOf(tools: seq<ToolRecord>, before: seq<ToolRecord>, invs: seq<ToolInvocation>, results: seq<ToolResult>)
    requires ToolsAfter(tools, before, invs, results)
    ensures forall k :: 0 <= k < |results| ==> Answering(invs[k], results[k])
  {
    forall k | 0 <= k < |results| ensures Answering(invs[k], results[k]) {
      assert tools[|before| + k].invocation == invs[k];
    }
  }

  lemma BatchUsesIds(items: seq<ConversationItem>, invs: seq<ToolInvocation>, results: seq<ToolResult>)
    requires CallsOf(items + Batch(invs, results)) == CallsOf(items) + CallsIn(invs)
    ensures UsedIds(items + Batch(invs, results)) == UsedIds(items) + IdsIn(invs)
  {
    hide CallsOf, Batch, CallsIn;
    var calls := CallsOf(items);
    CallIdsConcat(calls, CallsIn(invs));
    var all := CallIds(calls + CallsIn(invs));
    forall id | id in all ensures id in UsedIds(items) + IdsIn(invs) {
      var k :| 0 <= k < |all| && id == all[k];
      if k < |calls| {
        assert CallIds(calls)[k] in CallIds(calls);
      } else {
        assert invs[k - |calls|].call.callId in IdsIn(invs);
      }
    }
    forall id | id in IdsIn(invs) ensures id in all {
      var k :| 0 <= k < |invs| && invs[k].call.callId == id;
      assert all[|calls| + k] == id;
    }
  }

  // ---------------------------------------------------------------- where a run stands

  /** A run's setting, and its request with the tools it may use. */
  datatype Plan = Plan(at: Setting, request: TurnRequest)

  /** Where a run stands before a round: its conversation, what it has spent, the next record id, and
      every input it was fed. */
  datatype Stand = Stand(messages: seq<ConversationItem>, spent: Spending, id: nat, inputs: seq<R.RunInput>)

  lemma {:induction false} PendingFits(tools: seq<ToolDefinition>, events: seq<R.StreamEvent>)
    ensures CallsFit(tools, Pending(tools, events))
  {
    hide CallsFit;
    NoCallsFit();
    if events != [] {
      var before := events[..|events| - 1];
      PendingFits(tools, before);
      if events[|before|].CallFragments? {
        CollectFits(tools, Pending(tools, before), events[|before|].fragments);
      }
    }
  }

  lemma AskedCallsAreValid(tools: seq<ToolDefinition>, round: Round)
    ensures AllValid(CallsAsked(tools, round))
  {
    PendingFits(tools, round.events[..FirstEnd(round.events)]);
    hide Pending, Flows;
  }

  /** How the calls that a round asks for go. */
  ghost function ToolsOutcome(plan: Plan, round: Round, a: Stand): Result<CallsDone, DriverError> {
    var calls := CallsAsked(plan.request.tools, round);
    AskedCallsAreValid(plan.request.tools, round);
    CallsOutcome(plan.at, calls, round, UsedIds(a.messages), CallsDone([], a.spent, a.id + Deltas(Streamed(round))), 0)
  }

  /** Where a round takes a run that goes on: it asked for calls, each of them was completed, and the
      conversation that they make is not too large. */
  ghost function NextStand(plan: Plan, round: Round, a: Stand): Option<Stand> {
    var calls := CallsAsked(plan.request.tools, round);
    var done := ToolsOutcome(plan, round, a);
    if calls == [] || done.Err? then None else
    var messages := a.messages + Batch(calls, done.value.results);
    if !SizesFit(messages) then None else
    Some(Stand(messages, done.value.spent, done.value.id,
               a.inputs + EventInputs(Streamed(round)) + [R.ContinueAfterTools(plan.request.(messages := messages))]))
  }

  /** A call the round asks for cannot go, for this reason. */
  ghost predicate CallsRefused(plan: Plan, round: Round, a: Stand, error: DriverError) {
    CallsAsked(plan.request.tools, round) != [] && ToolsOutcome(plan, round, a) == Err(error)
  }

  /** The round's calls were completed, and make the conversation too large. */
  ghost predicate Outgrown(plan: Plan, round: Round, a: Stand, messages: seq<ConversationItem>) {
    var calls := CallsAsked(plan.request.tools, round);
    var done := ToolsOutcome(plan, round, a);
    calls != [] && done.Ok? && messages == a.messages + Batch(calls, done.value.results) && !SizesFit(messages)
  }

  lemma CallsDecide(plan: Plan, round: Round, a: Stand, calls: seq<ToolInvocation>)
    requires calls == CallsAsked(plan.request.tools, round) != []
    ensures var done := ToolsOutcome(plan, round, a);
            if done.Err? then CallsRefused(plan, round, a, done.error)
            else
              var messages := a.messages + Batch(calls, done.value.results);
              if SizesFit(messages) then
                NextStand(plan, round, a)
                == Some(Stand(messages, done.value.spent, done.value.id,
                              a.inputs + EventInputs(Streamed(round))
                              + [R.ContinueAfterTools(plan.request.(messages := messages))]))
              else Outgrown(plan, round, a, messages)
  {
    hide CallsAsked, ToolsOutcome, Batch, EventInputs, Streamed, SizesFit;
  }

  /** Once the conversation is paired, only its size can make the next request invalid. */
  lemma ValidUnlessTooLarge(request: TurnRequest, messages: seq<ConversationItem>)
    requires ValidRequest(request) && request.agentLimits.Some? && Paired(messages, request.tools)
    ensures ValidRequest(request.(messages := messages)) <==> SizesFit(messages)
  {
  }

  lemma ContinueAccepted(s: R.RunState, request: TurnRequest)
    requires s.AwaitingTools? && ValidRequest(request) && R.SameTurn(request, s.request)
    requires forall k :: 0 <= k < |s.invocations| ==> R.HasResultFor(request.messages, s.invocations[k].call.callId)
    ensures R.RunStep(s, R.ContinueAfterTools(request))
            == (R.RunState.Running(request, s.usage, []), Ok([R.OpenProvider(request)]))
  {
    hide R.HasResultFor;
  }

  lemma ContinueWritesNothing(s: R.RunState, request: TurnRequest, sid: SessionId, tid: TurnId, text: string, now: nat)
    requires s.AwaitingTools? && !R.RunStep(s, R.ContinueAfterTools(request)).0.Terminal?
    ensures InputRecord(s, R.ContinueAfterTools(request), sid, tid, text, now).None?
  {
    hide R.RunStep;
  }

  lemma SpeakingAfter(driver: Driver, sid: SessionId, turn: TurnRecord, turn': TurnRecord, text: string,
                      last: TurnRecord)
    requires driver.Ready(sid) && driver.Turn(sid) == last.(tools := driver.Turn(sid).tools)
    requires last == turn.(assistantMessage := last.assistantMessage) && TextSoFar(last.assistantMessage, text)
    requires turn' == turn.(tools := driver.Turn(sid).tools)
    ensures Speaking(driver, sid, turn', text)
  {
  }

  /** Completes the calls a run awaits and hands their results back to it. The run never refuses
      them; only a conversation that has grown too large stops here. */
  method ToolRound(driver: Driver, machine: R.RunMachine, request: TurnRequest, definitions: seq<ToolDefinition>,
                   registry: InvocationRegistry, budget: AgentBudget, mode: PermissionMode, round: Round,
                   ghost sid: SessionId, ghost turn: TurnRecord, events0: seq<R.RuntimeEvent>, assistant0: string,
                   ghost inputs0: seq<R.RunInput>, results: seq<ToolResult>, ghost plan: Plan, ghost a: Stand)
    returns (r: Result<seq<ToolResult>, DriverError>, request': TurnRequest, events: seq<R.RuntimeEvent>,
             assistant: string, ghost turn': TurnRecord, ghost inputs: seq<R.RunInput>)
    requires Together(driver, sid, turn, machine.state, events0, assistant0, inputs0) && machine.state.AwaitingTools?
    requires machine.state.request == request.(tools := definitions)
    requires ValidRequest(machine.state.request) && request.agentLimits.Some?
    requires Conversing(turn, registry.callIds, request.messages, definitions, results) && budget.Valid()
    requires machine.state.invocations == CallsAsked(definitions, round) != []
    requires plan.at == Setting(driver.store.size, sid, turn.turnId, mode)
    requires plan.request.(messages := request.messages) == request.(tools := definitions)
    requires a.messages == request.messages && a.spent == driver.Spent(budget)
    requires driver.nextId == a.id + Deltas(Streamed(round)) && inputs0 == a.inputs + EventInputs(Streamed(round))
    modifies machine, driver, driver.store, budget, registry
    ensures driver.store.machine == old(driver.store.machine) || fresh(driver.store.machine)
    ensures budget.Valid() && budget.providerRounds == old(budget.providerRounds)
    ensures |driver.executions| - old(|driver.executions|) <= budget.toolCalls - old(budget.toolCalls)
    ensures request' == request.(messages := request'.messages) && Answered(request'.messages, definitions)
    ensures r.Err? ==>
              if r.error.RuntimeFailed? then
                r.error.code == Configuration && Outgrown(plan, round, a, request'.messages)
              else request' == request && CallsRefused(plan, round, a, r.error)
    ensures r.Ok? ==>
              && machine.state.Running? && machine.state.request == request'.(tools := definitions)
              && ValidRequest(machine.state.request) && machine.state.pending == []
              && turn' == turn.(tools := turn'.tools)
              && Together(driver, sid, turn', machine.state, events, assistant, inputs)
              && Conversing(turn', registry.callIds, request'.messages, definitions, results + r.value)
              && NextStand(plan, round, a)
                   == Some(Stand(request'.messages, driver.Spent(budget), driver.nextId, inputs))
    ensures Sound(driver)
    ensures Extends(old(driver.store.journal), driver.store.journal)
  {
    hide Extends, CallsAsked, CallsOutcome, CallsRefused, Outgrown, NextStand, TooLarge, InputRecord, InStep, TurnIs,
         ValidRequest, Paired, CallsFit, Registered, ToolsAfter, Answering, R.RunStep, R.HasResultFor, LiveLog,
         RuntimeStore.Valid, AgentBudget.Valid, Recorded, ResultsOf, CallsOf, EventInputs, Deltas, Streamed, Batch;
    request', events, assistant, turn', inputs := request, events0, assistant0, turn, inputs0;
    var invocations := machine.state.invocations;
    ghost var ids := registry.callIds;
    ghost var last := driver.Turn(sid);
    CallsAreValid(definitions, invocations);
    CallsDecide(plan, round, a, invocations);
    var done := RunCalls(driver, sid, invocations, registry, budget, mode, round);
    if done.Err? {
      return Err(done.error), request', events, assistant, turn', inputs;
    }
    turn' := turn.(tools := driver.Turn(sid).tools);
    SpeakingAfter(driver, sid, turn, turn', assistant, last);
    ConversingAfter(turn, turn', ids, registry.callIds, request.messages, definitions, results, invocations,
                    done.value);
    request' := request.(messages := request.messages + Batch(invocations, done.value));
    var next := request'.(tools := definitions);
    ValidUnlessTooLarge(machine.state.request, request'.messages);
    assert next == machine.state.request.(messages := request'.messages);
    var valid := ValidateRequest(next);
    if !valid {
      return Err(RuntimeFailed(Configuration)), request', events, assistant, turn', inputs;
    }
    ContinueAccepted(machine.state, next);
    ContinueWritesNothing(machine.state, next, sid, turn.turnId, assistant, round.now);
    inputs := inputs + [R.ContinueAfterTools(next)];
    ghost var journal := driver.store.journal;
    var fed;
    fed, events, assistant :=
      Feed(driver, machine, R.ContinueAfterTools(next), sid, turn', events, assistant, round.now, inputs0);
    ExtendsTrans(old(driver.store.journal), journal, driver.store.journal);
    return Ok(done.value), request', events, assistant, turn', inputs;
  }

  lemma CallsAreValid(tools: seq<ToolDefinition>, invs: seq<ToolInvocation>)
    requires CallsFit(tools, invs)
    ensures AllValid(invs)
  {
  }

  // ---------------------------------------------------------------- the loop

  datatype RunReport = RunReport(events: seq<R.RuntimeEvent>, toolResults: seq<ToolResult>, receipt: TurnReceipt)

  /** The turn that was started has ended as the report says: its receipt, its usage as the capped
      total of what the provider reported, the text that was shown, and every tool closed with the
      result reported for it. */
  ghost predicate Delivered(driver: Driver, sid: SessionId, turn: TurnRecord, report: RunReport)
    reads driver, driver.store, driver.store.machine
  {
    && Sound(driver)
    && sid in driver.store.machine.sessions && driver.store.machine.sessions[sid].turns != []
    && var t := LastTurn(driver.store.machine.Project(), sid);
    && ReceiptFor(sid, turn, report.receipt) && ReceiptFor(sid, t, report.receipt)
    && t.userMessage == turn.userMessage && t.retryOf == turn.retryOf && t.startedAt == turn.startedAt
    && t.receipt == Some(report.receipt) && EndedAs(t.status, report.receipt.outcome)
    && t.usage == report.receipt.usage == Laws.TotalUsage(Laws.ReportedUsage(report.events))
    && (var text := Laws.ShownText(report.events);
        t.assistantMessage == if text == "" then None
                              else Some(VisibleMessage(Assistant, text, report.receipt.outcome != Completed)))
    && Recorded(t.tools, report.toolResults) && AllClosed(t.tools)
  }

  lemma DeliveredWhenEnded(driver: Driver, sid: SessionId, start: TurnRecord, turn: TurnRecord, s: R.RunState,
                           events: seq<R.RuntimeEvent>, text: string, inputs: seq<R.RunInput>, results: seq<ToolResult>)
    requires Together(driver, sid, turn, s, events, text, inputs) && s.Terminal?
    requires Recorded(turn.tools, results)
    requires turn == start.(tools := turn.tools)
    ensures Delivered(driver, sid, start, RunReport(events, results, s.receipt))
  {
    Laws.RunIsWellRun(inputs);
    hide Laws.RunAll, Laws.TotalUsage, Laws.ReportedUsage, Laws.PublishedEvents, Laws.ShownText;
    hide Laws.ShowsWhatItKeeps, Laws.Closes, LiveLog, RuntimeStore.Valid, RunFits;
    var at: nat :| TurnIs(driver, sid, EndedTurn(turn, s.receipt, text, at));
  }

  lemma StopStep(s: R.RunState, input: R.RunInput)
    requires s.Running? && (input.Cancel? || input.ProviderFailed?)
    ensures R.RunStep(s, input).0.Terminal? && R.RunStep(s, input).1.Ok?
  {
  }

  lemma BeginStep(request: TurnRequest)
    ensures var (next, reply) := R.RunStep(R.Idle, R.Begin(request));
            if ValidRequest(request) then reply.Ok? && next == R.RunState.Running(request, None, [])
            else reply == Err(Configuration) && next == R.Idle
  {
  }

  /** A turn that has only just started. */
  ghost predicate JustStarted(turn: TurnRecord) { turn.tools == [] && turn.assistantMessage.None? }

  /** A request that opens this turn: only plain messages so far, and limits set. */
  ghost predicate OpensTurn(request: TurnRequest, sid: SessionId, turn: TurnRecord) {
    && request.sessionId == sid && request.turnId == turn.turnId && request.requestId == turn.requestId
    && CallsOf(request.messages) == [] && ResultsOf(request.messages) == [] && request.agentLimits.Some?
  }

  lemma StartsTogether(driver: Driver, sid: SessionId, request: TurnRequest, definitions: seq<ToolDefinition>)
    requires driver.Ready(sid) && JustStarted(driver.Turn(sid)) && OpensTurn(request, sid, driver.Turn(sid))
    ensures Together(driver, sid, driver.Turn(sid), R.Idle, [], "", [])
    ensures Laws.IdsOf(R.RunState.Running(request.(tools := definitions), None, []))
            == Some((sid, driver.Turn(sid).turnId, driver.Turn(sid).requestId))
    ensures ValidRequest(request.(tools := definitions)) ==>
              Conversing(driver.Turn(sid), {}, request.messages, definitions, [])
  {
    NothingSeen();
    assert CallIds([])[..0] == ResultIds([]);
  }

  /** Why a round may fail, from where it stood, and nothing else: a badly asked call, a record that
      does not fit, a call that cannot go, or a conversation grown too large. */
  ghost predicate RoundFails(driver: Driver, plan: Plan, round: Round, a: Stand, after: seq<ConversationItem>,
                             error: DriverError)
    reads driver, driver.store, driver.store.machine
  {
    var tools := plan.request.tools;
    if error.RuntimeFailed? then
      || (after == a.messages && BadCall(error.code) && RefusedFor(tools, round, error.code))
      || (error.code == Configuration && Outgrown(plan, round, a, after))
    else
      && after == a.messages
      && (|| (error == StoreFailed(RecordTooLarge)
              && RoundTooLarge(driver, plan.at.sid, plan.at.tid, tools, round, a.inputs, a.id))
          || CallsRefused(plan, round, a, error))
  }

  /** One round: the provider's events, and then a report if the run ended, or else its tools. */
  method OneRound(driver: Driver, machine: R.RunMachine, request: TurnRequest, definitions: seq<ToolDefinition>,
                  registry: InvocationRegistry, budget: AgentBudget, mode: PermissionMode, round: Round,
                  ghost sid: SessionId, ghost start: TurnRecord, ghost turn: TurnRecord, events0: seq<R.RuntimeEvent>,
                  assistant0: string, ghost inputs0: seq<R.RunInput>, results0: seq<ToolResult>, ghost plan: Plan)
    returns (r: Result<Option<RunReport>, DriverError>, request': TurnRequest, events: seq<R.RuntimeEvent>,
             assistant: string, results: seq<ToolResult>, ghost turn': TurnRecord, ghost inputs: seq<R.RunInput>)
    requires Together(driver, sid, turn, machine.state, events0, assistant0, inputs0) && machine.state.Running?
    requires machine.state.request == request.(tools := definitions) && machine.state.pending == []
    requires ValidRequest(machine.state.request) && request.agentLimits.Some?
    requires turn == start.(tools := turn.tools)
    requires Conversing(turn, registry.callIds, request.messages, definitions, results0) && budget.Valid()
    requires plan.at == Setting(driver.store.size, sid, start.turnId, mode)
    requires plan.request.(messages := request.messages) == request.(tools := definitions)
    modifies machine, driver, driver.store, budget, registry
    ensures driver.store.machine == old(driver.store.machine) || fresh(driver.store.machine)
    ensures budget.Valid() && budget.providerRounds == old(budget.providerRounds)
    ensures |driver.executions| - old(|driver.executions|) <= budget.toolCalls - old(budget.toolCalls)
    ensures request' == request.(messages := request'.messages) && Answered(request'.messages, definitions)
    ensures var a := Stand(request.messages, old(driver.Spent(budget)), old(driver.nextId), inputs0);
            && (r.Err? ==> RoundFails(driver, plan, round, a, request'.messages, r.error))
            && (r.Ok? && r.value.Some? ==>
                  && request' == request && driver.Spent(budget) == a.spent
                  && RoundEnded(definitions, round, inputs0, r.value.value.receipt))
            && (r.Ok? && r.value.None? ==>
                  NextStand(plan, round, a)
                  == Some(Stand(request'.messages, driver.Spent(budget), driver.nextId, inputs)))
    ensures r.Ok? && r.value.Some? ==>
              && Delivered(driver, sid, start, r.value.value)
              && ResultsOf(request'.messages) == r.value.value.toolResults
    ensures r.Ok? && r.value.None? ==>
              && machine.state.Running? && machine.state.request == request'.(tools := definitions)
              && ValidRequest(machine.state.request) && machine.state.pending == []
                 && turn' == start.(tools := turn'.tools)
              && Together(driver, sid, turn', machine.state, events, assistant, inputs)
              && Conversing(turn', registry.callIds, request'.messages, definitions, results)
    ensures Sound(driver)
    ensures Extends(old(driver.store.journal), driver.store.journal)
  {
    hide Extends, Together, Conversing, Delivered, ValidRequest, AgentBudget.Valid, R.RunStep, BadCall, LiveLog,
         RuntimeStore.Valid;
    hide NextStand, CallsRefused, Outgrown, RoundTooLarge, RoundEnded, RefusedFor, CallsAsked, Deltas, EventInputs,
         Streamed, Sound;
    hide CallsOf, ResultsOf, Answered, SizesFit, Recorded, Registered;
    request', results, turn' := request, results0, turn;
    ConversingMeans(turn, registry.callIds, request.messages, definitions, results);
    ghost var a := Stand(request.messages, driver.Spent(budget), driver.nextId, inputs0);
    var fed;
    fed, events, assistant, inputs := StreamRound(driver, machine, round, sid, turn, events0, assistant0, inputs0);
    if fed.Err? {
      r := Err(fed.error);
      return;
    }
    if machine.state.Terminal? {
      DeliveredWhenEnded(driver, sid, start, turn, machine.state, events, assistant, inputs, results);
      r := Ok(Some(RunReport(events, results, machine.state.receipt)));
      return;
    }
    ghost var journal := driver.store.journal;
    var done;
    done, request', events, assistant, turn', inputs :=
      ToolRound(driver, machine, request, definitions, registry, budget, mode, round, sid, turn, events, assistant,
                inputs, results, plan, a);
    ExtendsTrans(old(driver.store.journal), journal, driver.store.journal);
    if done.Err? {
      r := Err(done.error);
      return;
    }
    results := results + done.value;
    r := Ok(None);
  }

  /** Stops a running run: its end is journaled and reported, if its record fits. */
  method Stop(driver: Driver, machine: R.RunMachine, input: R.RunInput, ghost sid: SessionId, ghost start: TurnRecord,
              ghost turn: TurnRecord, events0: seq<R.RuntimeEvent>, assistant0: string, now: nat,
              ghost inputs: seq<R.RunInput>, results: seq<ToolResult>)
    returns (r: Result<RunReport, DriverError>)
    requires Together(driver, sid, turn, machine.state, events0, assistant0, inputs) && machine.state.Running?
    requires input.Cancel? || input.ProviderFailed?
    requires turn == start.(tools := turn.tools) && Recorded(turn.tools, results)
    modifies machine, driver`nextId, driver.store
    ensures r.Ok? ==>
              && Delivered(driver, sid, start, r.value) && r.value.toolResults == results
              && EndedHere(inputs, input, r.value.receipt)
    ensures r.Err? ==> r.error == StoreFailed(RecordTooLarge)
                       && TooLarge(driver, sid, start.turnId, inputs, old(driver.nextId), input, now)
    ensures Sound(driver)
    ensures Extends(old(driver.store.journal), driver.store.journal)
  {
    hide Extends, Together, Recorded, R.RunStep, Delivered, TooLarge, InputFits, EndedHere;
    StopStep(machine.state, input);
    EndsHere(driver, sid, turn, machine.state, events0, assistant0, inputs, input);
    var fed, events, assistant := Feed(driver, machine, input, sid, turn, events0, assistant0, now, inputs);
    if fed.Err? {
      return Err(fed.error);
    }
    TogetherIsSound(driver, sid, turn, machine.state, events, assistant, inputs + [input]);
    DeliveredWhenEnded(driver, sid, start, turn, machine.state, events, assistant, inputs + [input], results);
    return Ok(RunReport(events, results, machine.state.receipt));
  }

  /** Begins the run of a started turn. */
  method OpenRun(driver: Driver, ghost sid: SessionId, request: TurnRequest, definitions: seq<ToolDefinition>, now: nat)
    returns (r: Result<(), DriverError>, machine: R.RunMachine, events: seq<R.RuntimeEvent>, assistant: string,
             ghost inputs: seq<R.RunInput>)
    requires driver.Ready(sid) && JustStarted(driver.Turn(sid)) && OpensTurn(request, sid, driver.Turn(sid))
    modifies driver`nextId, driver.store
    ensures fresh(machine) && (driver.store.machine == old(driver.store.machine) || fresh(driver.store.machine))
    ensures r == if ValidRequest(request.(tools := definitions)) then Ok(()) else Err(RuntimeFailed(Configuration))
    ensures r.Ok? ==>
              && Together(driver, sid, old(driver.Turn(sid)), machine.state, events, assistant, inputs)
              && machine.state.Running? && machine.state.pending == []
              && machine.state.request == request.(tools := definitions)
              && Conversing(old(driver.Turn(sid)), {}, request.messages, definitions, [])
              && driver.nextId == old(driver.nextId) && inputs == [R.Begin(request.(tools := definitions))]
    ensures Sound(driver)
    ensures Extends(old(driver.store.journal), driver.store.journal)
  {
    hide Extends, Together, Conversing, ValidRequest, R.RunStep, InputFits, TooLarge;
    machine := new R.RunMachine();
    ghost var turn := driver.Turn(sid);
    StartsTogether(driver, sid, request, definitions);
    var machineRequest := request.(tools := definitions);
    BeginStep(machineRequest);
    BeginWritesNothing(machineRequest, sid, turn.turnId, driver.nextId, now);
    r, events, assistant := Feed(driver, machine, R.Begin(machineRequest), sid, turn, [], "", now, []);
    inputs := [] + [R.Begin(machineRequest)];
    TogetherIsSound(driver, sid, turn, machine.state, events, assistant, inputs);
  }

  lemma BeginWritesNothing(request: TurnRequest, sid: SessionId, tid: TurnId, id: nat, now: nat)
    ensures InputRecord(R.Idle, R.Begin(request), sid, tid, "", now).None?
    ensures forall size :: InputFits(size, R.Idle, R.Begin(request), sid, tid, "", id, now)
  {
  }

  /** Where a run stands after `k` rounds that it went on from. */
  ghost function StandAfter(plan: Plan, rounds: nat -> Round, first: Stand, k: nat): Option<Stand> {
    if k == 0 then Some(first) else
    var before := StandAfter(plan, rounds, first, k - 1);
    if before.None? then None else NextStand(plan, rounds(k - 1), before.value)
  }

  /** Where a run stands that has just begun. */
  function Opening(request: TurnRequest, limits: AgentLimits, startedAt: nat, id: nat): Stand {
    Stand(request.messages, Spending(limits, startedAt, 0, 0), id, [R.Begin(request)])
  }

  /** What stops a run from outside: a cancellation, or else its budget of time or rounds. */
  function StopInput(round: Round): R.RunInput {
    if round.cancelled then R.Cancel else R.ProviderFailed(Failure.Failure(AgentBudgetExhausted, None))
  }

  ghost predicate IsStopped(limits: AgentLimits, startedAt: nat, round: Round, streamed: nat) {
    round.cancelled || TimeIsUp(limits, startedAt, round.now) || streamed == limits.maxProviderRounds
  }

  /** The run was stopped before a round, or ended within its last one: this is where that round found
      it, and the input that ended it. */
  ghost predicate CameTo(plan: Plan, rounds: nat -> Round, first: Stand, streamed: nat,
                         conversation: seq<ConversationItem>, spent: Spending, receipt: TurnReceipt)
  {
    var here := StandAfter(plan, rounds, first, streamed);
    || (here.Some? && conversation == here.value.messages && spent == here.value.spent
        && IsStopped(first.spent.limits, first.spent.startedAt, rounds(streamed), streamed)
        && EndedHere(here.value.inputs, StopInput(rounds(streamed)), receipt)
        && receipt.outcome == if rounds(streamed).cancelled then WasInterrupted
                              else FailedWith(Failure.Failure(AgentBudgetExhausted, None)))
    || (streamed > 0
        && var before := StandAfter(plan, rounds, first, streamed - 1);
           && before.Some? && conversation == before.value.messages && spent == before.value.spent
           && RoundEnded(plan.request.tools, rounds(streamed - 1), before.value.inputs, receipt))
  }

  /** Why a run may fail, and nothing else: it was given bad limits or a bad request, the end of a
      stopped run does not fit, or the last round that was streamed failed. */
  ghost predicate RunFails(driver: Driver, plan: Plan, rounds: nat -> Round, first: Stand,
                           conversation: seq<ConversationItem>, streamed: nat, error: DriverError)
    reads driver, driver.store, driver.store.machine
  {
    var here := StandAfter(plan, rounds, first, streamed);
    || (error == RuntimeFailed(Configuration) && streamed == 0 && conversation == first.messages
        && (!first.spent.limits.Valid() || !ValidRequest(plan.request)))
    || (here.Some? && conversation == here.value.messages && error == StoreFailed(RecordTooLarge)
        && IsStopped(first.spent.limits, first.spent.startedAt, rounds(streamed), streamed)
        && TooLarge(driver, plan.at.sid, plan.at.tid, here.value.inputs, here.value.id, StopInput(rounds(streamed)),
                    rounds(streamed).now))
    || (streamed > 0
        && var before := StandAfter(plan, rounds, first, streamed - 1);
           before.Some? && RoundFails(driver, plan, rounds(streamed - 1), before.value, conversation, error))
  }

  lemma StandsOn(plan: Plan, rounds: nat -> Round, first: Stand, a: Stand, k: nat)
    requires StandAfter(plan, rounds, first, k) == Some(a)
    ensures StandAfter(plan, rounds, first, k + 1) == NextStand(plan, rounds(k), a)
  {
    hide NextStand;
  }

  lemma LastRoundFails(driver: Driver, plan: Plan, rounds: nat -> Round, first: Stand, a: Stand,
                       conversation: seq<ConversationItem>, k: nat, error: DriverError)
    requires StandAfter(plan, rounds, first, k) == Some(a)
    requires RoundFails(driver, plan, rounds(k), a, conversation, error)
    ensures RunFails(driver, plan, rounds, first, conversation, k + 1, error)
  {
    hide StandAfter, RoundFails, TooLarge, IsStopped, ValidRequest;
  }

  lemma StopFails(driver: Driver, plan: Plan, rounds: nat -> Round, first: Stand, a: Stand, streamed: nat)
    requires StandAfter(plan, rounds, first, streamed) == Some(a)
    requires IsStopped(first.spent.limits, first.spent.startedAt, rounds(streamed), streamed)
    requires TooLarge(driver, plan.at.sid, plan.at.tid, a.inputs, a.id, StopInput(rounds(streamed)),
                      rounds(streamed).now)
    ensures RunFails(driver, plan, rounds, first, a.messages, streamed, StoreFailed(RecordTooLarge))
  {
    hide StandAfter, RoundFails, TooLarge, IsStopped, ValidRequest;
  }

  lemma BadRequestFails(driver: Driver, plan: Plan, rounds: nat -> Round, first: Stand)
    requires !first.spent.limits.Valid() || !ValidRequest(plan.request)
    ensures RunFails(driver, plan, rounds, first, first.messages, 0, RuntimeFailed(Configuration))
  {
    hide StandAfter, RoundFails, TooLarge, IsStopped, ValidRequest;
  }

  lemma HasEnded(plan: Plan, rounds: nat -> Round, first: Stand, a: Stand, k: nat, receipt: TurnReceipt)
    requires StandAfter(plan, rounds, first, k) == Some(a)
    requires RoundEnded(plan.request.tools, rounds(k), a.inputs, receipt)
    ensures CameTo(plan, rounds, first, k + 1, a.messages, a.spent, receipt)
  {
    hide StandAfter, EndedHere, IsStopped, RoundEnded;
  }

  lemma HasStopped(plan: Plan, rounds: nat -> Round, first: Stand, a: Stand, k: nat, receipt: TurnReceipt)
    requires StandAfter(plan, rounds, first, k) == Some(a)
    requires IsStopped(first.spent.limits, first.spent.startedAt, rounds(k), k)
    requires EndedHere(a.inputs, StopInput(rounds(k)), receipt)
    ensures CameTo(plan, rounds, first, k, a.messages, a.spent, receipt)
  {
    StopSays(rounds(k), a.inputs, receipt);
    hide StandAfter, EndedHere, IsStopped, RoundEnded;
  }

  lemma StopSays(round: Round, inputs: seq<R.RunInput>, receipt: TurnReceipt)
    requires EndedHere(inputs, StopInput(round), receipt)
    ensures receipt.outcome == if round.cancelled then WasInterrupted
                               else FailedWith(Failure.Failure(AgentBudgetExhausted, None))
  {
    hide Laws.RunAll;
  }

  /** The loop of an opened run. */
  method DriveRounds(driver: Driver, machine: R.RunMachine, budget: AgentBudget, registry: InvocationRegistry,
                     ghost sid: SessionId, ghost start: TurnRecord, request0: TurnRequest,
                     definitions: seq<ToolDefinition>, mode: PermissionMode, rounds: nat -> Round,
                     events0: seq<R.RuntimeEvent>, assistant0: string, ghost first: Stand)
    returns (r: Result<RunReport, DriverError>, ghost conversation: seq<ConversationItem>, ghost streamed: nat,
             ghost spent: Spending)
    requires Together(driver, sid, start, machine.state, events0, assistant0, first.inputs)
    requires machine.state.Running? && machine.state.request == request0.(tools := definitions)
    requires ValidRequest(machine.state.request) && request0.agentLimits.Some? && machine.state.pending == []
    requires Conversing(start, registry.callIds, request0.messages, definitions, [])
    requires budget.Valid() && budget.providerRounds == budget.toolCalls == 0
    requires first.messages == request0.messages && first.spent == driver.Spent(budget) && first.id == driver.nextId
    modifies machine, driver, driver.store, budget, registry
    ensures streamed <= budget.limits.maxProviderRounds
    ensures |driver.executions| - old(|driver.executions|) <= spent.calls <= budget.limits.maxToolCalls
    ensures spent.bytes <= budget.limits.maxToolResultBytes
    ensures Answered(conversation, definitions)
    ensures var plan := Plan(Setting(driver.store.size, sid, start.turnId, mode), request0.(tools := definitions));
            && (r.Ok? ==> CameTo(plan, rounds, first, streamed, conversation, spent, r.value.receipt))
            && (r.Err? ==> RunFails(driver, plan, rounds, first, conversation, streamed, r.error))
    ensures r.Ok? ==> Delivered(driver, sid, start, r.value) && ResultsOf(conversation) == r.value.toolResults
    ensures Sound(driver)
    ensures Extends(old(driver.store.journal), driver.store.journal)
  {
    hide Extends, Together, Conversing, Delivered, ValidRequest, AgentBudget.Valid, R.RunStep, BadCall, LiveLog,
         RuntimeStore.Valid, CallsOf, ResultsOf, Answered, SizesFit, JustStarted, Recorded, Registered, StandAfter,
         NextStand, RoundFails, TooLarge, RunFails, CameTo, EndedHere, RoundEnded, IsStopped, Sound;
    ExtendsSame(driver.store.journal);
    var request, events, assistant := request0, events0, assistant0;
    ghost var plan := Plan(Setting(driver.store.size, sid, start.turnId, mode), request0.(tools := definitions));
    ghost var turn, inputs, a := start, first.inputs, first;
    conversation, streamed, spent := request.messages, 0, driver.Spent(budget);
    AtFirst(plan, rounds, first);
    WithinLimits(budget);
    ghost var limits, startedAt := budget.limits, budget.startedAt;
    var results: seq<ToolResult> := [];
    var n := 0;
    while true
      invariant driver.store.machine == old(driver.store.machine) || fresh(driver.store.machine)
      invariant Together(driver, sid, turn, machine.state, events, assistant, inputs)
      invariant machine.state.Running? && machine.state.request == request.(tools := definitions)
      invariant ValidRequest(machine.state.request) && request.agentLimits.Some? && machine.state.pending == []
      invariant turn == start.(tools := turn.tools) && request == request0.(messages := request.messages)
      invariant Conversing(turn, registry.callIds, request.messages, definitions, results)
      invariant budget.Valid()
      invariant conversation == request.messages && Extends(old(driver.store.journal), driver.store.journal)
      invariant a == Stand(conversation, spent, driver.nextId, inputs) && StandAfter(plan, rounds, first, n) == Some(a)
      invariant n == streamed == budget.providerRounds <= limits.maxProviderRounds
      invariant spent == driver.Spent(budget) && spent.calls <= limits.maxToolCalls
                && spent.bytes <= limits.maxToolResultBytes
      invariant |driver.executions| - old(|driver.executions|) <= budget.toolCalls
      decreases limits.maxProviderRounds - budget.providerRounds
    {
      var round := rounds(n);
      ghost var journal := driver.store.journal;
      ConversingMeans(turn, registry.callIds, request.messages, definitions, results);
      var exhausted := None;
      if !round.cancelled {
        exhausted := budget.ConsumeProviderRound(round.now);
      }
      if round.cancelled || exhausted.Some? {
        StopsNow(limits, startedAt, round, streamed);
        r := Stop(driver, machine, StopInput(round), sid, start, turn, events, assistant, round.now, inputs, results);
        ExtendsTrans(old(driver.store.journal), journal, driver.store.journal);
        if r.Err? {
          StopFails(driver, plan, rounds, first, a, streamed);
        } else {
          HasStopped(plan, rounds, first, a, n, r.value.receipt);
        }
        return r, conversation, streamed, spent;
      }
      streamed := streamed + 1;
      var done;
      done, request, events, assistant, results, turn, inputs :=
        OneRound(driver, machine, request, definitions, registry, budget, mode, round, sid, start, turn, events,
                 assistant, inputs, results, plan);
      conversation, spent := request.messages, driver.Spent(budget);
      WithinLimits(budget);
      ExtendsTrans(old(driver.store.journal), journal, driver.store.journal);
      if done.Err? {
        LastRoundFails(driver, plan, rounds, first, a, conversation, n, done.error);
        return Err(done.error), conversation, streamed, spent;
      }
      if done.value.Some? {
        HasEnded(plan, rounds, first, a, n, done.value.value.receipt);
        return Ok(done.value.value), conversation, streamed, spent;
      }
      StandsOn(plan, rounds, first, a, n);
      a := Stand(conversation, spent, driver.nextId, inputs);
      n := n + 1;
    }
  }

  /** Runs one started turn to its end: rounds of the provider and of tools, until a receipt. The loop
      ends within the round limit, executes no more tools than the call limit, keeps the conversation
      paired and fully answered, and either delivers its report or fails for a reason in `RunFails`. */
  method DriveAgent(driver: Driver, ghost sid: SessionId, request0: TurnRequest, definitions: seq<ToolDefinition>,
                    limits: AgentLimits, mode: PermissionMode, startedAt: nat, rounds: nat -> Round)
    returns (r: Result<RunReport, DriverError>, ghost conversation: seq<ConversationItem>, ghost streamed: nat,
             ghost spent: Spending)
    requires driver.Ready(sid) && JustStarted(driver.Turn(sid)) && OpensTurn(request0, sid, driver.Turn(sid))
    modifies driver, driver.store
    ensures streamed <= limits.maxProviderRounds
    ensures |driver.executions| - old(|driver.executions|) <= spent.calls <= limits.maxToolCalls
    ensures spent.bytes <= limits.maxToolResultBytes
    ensures limits.Valid() && ValidRequest(request0.(tools := definitions)) ==> Answered(conversation, definitions)
    ensures var request := request0.(tools := definitions);
            var plan := Plan(Setting(driver.store.size, sid, old(driver.Turn(sid)).turnId, mode), request);
            var first := Opening(request, limits, startedAt, old(driver.nextId));
            && (r.Ok? ==> CameTo(plan, rounds, first, streamed, conversation, spent, r.value.receipt))
            && (r.Err? ==> RunFails(driver, plan, rounds, first, conversation, streamed, r.error))
    ensures r.Ok? ==>
              && Delivered(driver, sid, old(driver.Turn(sid)), r.value)
              && ResultsOf(conversation) == r.value.toolResults
    ensures Sound(driver)
    ensures Extends(old(driver.store.journal), driver.store.journal)
  {
    hide Extends, Together, Conversing, Delivered, ValidRequest, AgentBudget.Valid, R.RunStep, BadCall, LiveLog,
         RuntimeStore.Valid, CallsOf, ResultsOf, Answered, SizesFit, JustStarted, Recorded, Registered, StandAfter,
         NextStand, RoundFails, TooLarge, RunFails, CameTo, EndedHere, RoundEnded, IsStopped, Sound;
    ExtendsSame(driver.store.journal);
    var request := request0;
    conversation, streamed, spent := request.messages, 0, Spending(limits, startedAt, 0, 0);
    ghost var start := driver.Turn(sid);
    ghost var plan := Plan(Setting(driver.store.size, sid, start.turnId, mode), request0.(tools := definitions));
    ghost var first := Opening(plan.request, limits, startedAt, driver.nextId);
    ReadyIsSound(driver, sid);
    if !limits.Valid() {
      BadRequestFails(driver, plan, rounds, first);
      return Err(RuntimeFailed(Configuration)), conversation, streamed, spent;
    }
    var budget := new AgentBudget(limits, startedAt);
    var registry := new InvocationRegistry();
    var begun, machine, events, assistant, inputs := OpenRun(driver, sid, request, definitions, startedAt);
    if begun.Err? {
      BadRequestFails(driver, plan, rounds, first);
      return Err(begun.error), conversation, streamed, spent;
    }
    ghost var journal := driver.store.journal;
    r, conversation, streamed, spent :=
      DriveRounds(driver, machine, budget, registry, sid, start, request0, definitions, mode, rounds, events,
                  assistant, first);
    ExtendsTrans(old(driver.store.journal), journal, driver.store.journal);
  }

  lemma AtFirst(plan: Plan, rounds: nat -> Round, first: Stand)
    ensures StandAfter(plan, rounds, first, 0) == Some(first)
  {
  }

  lemma StopsNow(limits: AgentLimits, startedAt: nat, round: Round, streamed: nat)
    requires round.cancelled || TimeIsUp(limits, startedAt, round.now) || streamed == limits.maxProviderRounds
    ensures IsStopped(limits, startedAt, round, streamed)
    ensures StopInput(round).Cancel? || StopInput(round).ProviderFailed?
  {
  }

  lemma ReadyIsSound(driver: Driver, sid: SessionId)
    requires driver.Ready(sid)
    ensures Sound(driver)
  {
    hide LiveLog, RuntimeStore.Valid;
  }

  lemma ConversingMeans(turn: TurnRecord, ids: set<CallId>, messages: seq<ConversationItem>,
                        definitions: seq<ToolDefinition>, results: seq<ToolResult>)
    requires Conversing(turn, ids, messages, definitions, results)
    ensures Answered(messages, definitions) && ResultsOf(messages) == results && Recorded(turn.tools, results)
  {
  }

  lemma WithinLimits(budget: AgentBudget)
    requires budget.Valid()
    ensures budget.toolCalls <= budget.limits.maxToolCalls
    ensures budget.toolResultBytes <= budget.limits.maxToolResultBytes
    ensures budget.providerRounds <= budget.limits.maxProviderRounds
  {
  }

  // ---------------------------------------------------------------- from user input to report

  lemma {:induction false} PlainConcat(a: seq<ConversationItem>, b: seq<ConversationItem>)
    requires forall i :: 0 <= i < |b| ==> b[i].Message?
    ensures CallsOf(a + b) == CallsOf(a) && ResultsOf(a + b) == ResultsOf(a)
  {
    if b == [] {
      assert a + b == a;
    } else {
      assert (a + b)[..|a + b| - 1] == a + b[..|b| - 1];
      PlainConcat(a, b[..|b| - 1]);
      assert CallsOf(a) + [] == CallsOf(a) && ResultsOf(a) + [] == ResultsOf(a);
    }
  }

  lemma {:induction false} HistoryIsPlain(turns: seq<TurnRecord>, except: TurnId)
    ensures forall i :: 0 <= i < |History(turns, except)| ==> History(turns, except)[i].Message?
  {
    if turns != [] {
      HistoryIsPlain(turns[..|turns| - 1], except);
    }
  }

  lemma RequestIsPlain(s: SessionRecord, turn: TurnRecord, binding: ModelBinding, maxOutputTokens: nat)
    ensures var messages := RequestFor(s, turn, binding, maxOutputTokens).messages;
            CallsOf(messages) == [] && ResultsOf(messages) == []
  {
    HistoryIsPlain(s.turns, turn.turnId);
    var messages := RequestFor(s, turn, binding, maxOutputTokens).messages;
    assert [] + messages == messages;
    PlainConcat([], messages);
  }

  const SHELL_TOOLS: set<string> := {"shell_command", "shell_session"}

  /** The tools offered to the model: shell tools only with full access. */
  function ToolsFor(definitions: seq<ToolDefinition>, mode: PermissionMode): seq<ToolDefinition> {
    if definitions == [] then [] else
    var rest := ToolsFor(definitions[1..], mode);
    if mode == FullAccess || definitions[0].name !in SHELL_TOOLS then [definitions[0]] + rest else rest
  }

  /** The first tools of a list, by their places. */
  ghost predicate KeptAt(tools: seq<ToolDefinition>, kept: seq<ToolDefinition>, places: seq<nat>) {
    && |places| == |kept| && (forall j, k :: 0 <= j < k < |places| ==> places[j] < places[k])
    && forall k :: 0 <= k < |places| ==> places[k] < |tools| && kept[k] == tools[places[k]]
  }

  function Shifted(places: seq<nat>): (s: seq<nat>)
    ensures |s| == |places|
  {
    seq(|places|, k requires 0 <= k < |places| => places[k] + 1)
  }

  lemma ShiftedAre(tools: seq<ToolDefinition>, kept: seq<ToolDefinition>, rest: seq<nat>)
    requires tools != [] && KeptAt(tools[1..], kept, rest)
    ensures KeptAt(tools, kept, Shifted(rest)) && KeptAt(tools, [tools[0]] + kept, [0] + Shifted(rest))
    ensures forall i: nat :: i in Shifted(rest) <==> i > 0 && i - 1 in rest
  {
    forall i: nat | i > 0 && i - 1 in rest ensures i in Shifted(rest) {
      var k :| 0 <= k < |rest| && rest[k] == i - 1;
      assert Shifted(rest)[k] == i;
    }
  }

  predicate Offered(tool: ToolDefinition, mode: PermissionMode) {
    mode == FullAccess || tool.name !in {"shell_command", "shell_session"}
  }

  /** With full access every tool is offered; otherwise all but the two shell tools, in the same order. */
  lemma {:induction false} ToolsForKeeps(tools: seq<ToolDefinition>, mode: PermissionMode) returns (places: seq<nat>)
    ensures KeptAt(tools, ToolsFor(tools, mode), places)
    ensures forall i :: 0 <= i < |tools| ==> (i in places <==> Offered(tools[i], mode))
  {
    if tools == [] {
      places := [];
    } else {
      var rest := ToolsForKeeps(tools[1..], mode);
      ShiftedAre(tools, ToolsFor(tools[1..], mode), rest);
      places := if Offered(tools[0], mode) then [0] + Shifted(rest) else Shifted(rest);
      hide KeptAt, Shifted;
      forall i | 0 <= i < |tools| ensures i in places <==> Offered(tools[i], mode) {
        if i > 0 {
          assert tools[1..][i - 1] == tools[i];
        }
      }
    }
  }

  function RequestIn(effects: seq<Effect>): Option<TurnRequest> {
    if effects == [] then None
    else if effects[0].BeginTurn? then Some(effects[0].request)
    else RequestIn(effects[1..])
  }

  /** A Continue that is accepted starts a turn of the active session, with no tools and no text. */
  lemma ContinueStarts(m: Machine, c: Command)
    requires JournalOk(m.journal) && c.Continue? && Step(m, c).1.Ok?
    ensures m.journal.active.Some? && m.journal.active.value in m.journal.sessions
    ensures var sid := m.journal.active.value;
            var (m', reply) := Step(m, c);
            && RunsLast(m'.journal, sid) && m'.journal.active == Some(sid)
            && LastTurn(m'.journal, sid) == NewTurn(c.turnId, c.requestId, c.now, None, c.input)
            && RequestIn(reply.value).Some?
            && OpensTurn(RequestIn(reply.value).value.(agentLimits := Some(AgentLimits(0, 0, 0, 0))), sid,
                         LastTurn(m'.journal, sid))
            && |Persisted(reply)| == 1 && RecordSession(Persisted(reply)[0].record) == sid
            && NamesTool(Persisted(reply)[0].record) && Persisted(reply)[0].recordId == c.recordId
            && m'.seen == m.seen[c.recordId := Persisted(reply)[0]]
  {
    hide ValidRequest, History, IsBlank, Live, CallsOf, ResultsOf, AnyBusy;
    StartPersists(m, c);
    var (m', reply) := Step(m, c);
    var turn := NewTurn(c.turnId, c.requestId, c.now, None, c.input);
    var s := ActiveSession(m.journal).value;
    assert SessionOk(m.journal.active.value, s);
    RequestIsPlain(ActiveSession(m'.journal).value, turn, s.binding, c.maxOutputTokens);
    assert reply.value[1..][0] == reply.value[1];
    PersistedPrefix(reply.value[0].envelope, reply.value[1..]);
    assert reply.value == [Effect.Persist(reply.value[0].envelope)] + reply.value[1..];
  }

  lemma ReadyAfterStart(driver: Driver, sid: SessionId)
    requires driver.store.Valid() && LiveLog(driver.store.journal)
    requires driver.store.machine.Project().active == Some(sid) && RunsLast(driver.store.machine.Project(), sid)
    requires sid !in driver.store.finalized
    requires forall id :: id in driver.store.recordsById ==> id < driver.nextId
    ensures driver.Ready(sid)
  {
  }

  lemma NotReused(m: Machine, c: Command)
    requires c.Continue? && c.recordId !in m.seen
    ensures !ReusesId(m, c)
  {
  }

  /** Why a turn does not start: the session machine refuses it, the session is finalized, or the
      record that would start it does not fit. */
  ghost function StartError(m: Machine, finalized: set<SessionId>, size: Sizes, c: Command): Option<StoreError> {
    var reply := Step(m, c).1;
    if reply.Err? then Some(CommandRefused(reply.error))
    else if m.journal.active.Some? && m.journal.active.value in finalized then Some(SessionFinalized)
    else if Persisted(reply) != [] && !Fits(size, Persisted(reply)[0]) then Some(RecordTooLarge)
    else None
  }

  /** Starts a turn, or leaves the store as it is. */
  method StartTurn(driver: Driver, c: Command) returns (r: Result<TurnRequest, StoreError>)
    requires Sound(driver) && c.Continue? && c.recordId == driver.nextId
    modifies driver`nextId, driver.store
    ensures driver.store.machine == old(driver.store.machine) || fresh(driver.store.machine)
    ensures Sound(driver) && Extends(old(driver.store.journal), driver.store.journal)
    ensures var m := old(driver.store.machine.View());
            var error := StartError(m, driver.store.finalized, driver.store.size, c);
            if error.Some? then r == Err(error.value) && driver.store.journal == old(driver.store.journal)
            else
              var reply := Step(m, c).1;
              && reply.Ok? && r.Ok? && RequestIn(reply.value) == Some(r.value) && m.journal.active.Some?
              && var sid := m.journal.active.value;
              && driver.store.journal == old(driver.store.journal) + Persisted(reply)
              && driver.nextId == old(driver.nextId) + 1 && driver.Ready(sid)
              && driver.Turn(sid) == NewTurn(c.turnId, c.requestId, c.now, None, c.input)
              && OpensTurn(r.value.(agentLimits := Some(AgentLimits(0, 0, 0, 0))), sid, driver.Turn(sid))
  {
    hide Extends, ValidRequest, Step, LiveLog, JournalOk, ReusesId, Replay, Fits, LogFits;
    ExtendsSame(driver.store.journal);
    driver.nextId := driver.nextId + 1;
    LiveLogOk(driver.store.journal);
    ghost var before := driver.store.machine.View();
    NotReused(before, c);
    ghost var reply := Step(before, c).1;
    if reply.Ok? {
      ContinueStarts(before, c);
      assert Persisted(reply) == [Persisted(reply)[0]];
      ExtendsOne(driver.store.journal, Persisted(reply)[0]);
    }
    var started := driver.store.ApplyCommand(c);
    if started.Err? {
      return Err(started.error);
    }
    ReadyAfterStart(driver, before.journal.active.value);
    return Ok(RequestIn(started.value).value);
  }

  lemma FailsOtherwise(driver: Driver, plan: Plan, rounds: nat -> Round, first: Stand,
                       conversation: seq<ConversationItem>, streamed: nat, error: DriverError)
    requires RunFails(driver, plan, rounds, first, conversation, streamed, error)
    ensures error != RuntimeFailed(Recovery)
  {
    hide StandAfter, RefusedFor, TooLarge, CallsRefused, Outgrown, RoundTooLarge;
  }

  lemma ReadyRuns(driver: Driver, sid: SessionId)
    requires driver.Ready(sid)
    ensures RunsLast(driver.store.machine.Project(), sid)
  {
    hide RunsLast, LiveLog, RuntimeStore.Valid;
  }

  lemma NewTurnOpens(started: TurnRequest, request: TurnRequest, sid: SessionId, turn: TurnRecord)
    requires OpensTurn(started.(agentLimits := Some(AgentLimits(0, 0, 0, 0))), sid, turn)
    requires request == started.(tools := request.tools, agentLimits := request.agentLimits)
    requires request.agentLimits.Some?
    ensures OpensTurn(request, sid, turn)
    ensures turn.tools == [] && turn.assistantMessage.None? ==> JustStarted(turn)
  {
  }

  /** From user input to report, on any sound store: an input that starts no turn changes nothing, and
      a turn that was started is delivered, or fails for one of the reasons stated. */
  method RunAgent(driver: Driver, turnId: TurnId, requestId: RequestId, input: string, maxOutputTokens: nat, now: nat,
                  definitions: seq<ToolDefinition>, limits: AgentLimits, mode: PermissionMode, startedAt: nat,
                  rounds: nat -> Round)
    returns (r: Result<RunReport, DriverError>, ghost conversation: seq<ConversationItem>, ghost streamed: nat,
             ghost spent: Spending)
    requires Sound(driver)
    modifies driver, driver.store
    ensures var c := Continue(old(driver.nextId), turnId, requestId, input, maxOutputTokens, now);
            var m := old(driver.store.machine.View());
            var error := StartError(m, driver.store.finalized, driver.store.size, c);
            if error.Some? then r == Err(StoreFailed(error.value)) && driver.store.journal == old(driver.store.journal)
            else
              var reply := Step(m, c).1;
              && m.journal.active.Some? && reply.Ok? && RequestIn(reply.value).Some?
              && old(driver.store.journal) + Persisted(reply) <= driver.store.journal
              && var sid := m.journal.active.value;
                 var request := RequestIn(reply.value).value
                                .(tools := ToolsFor(definitions, mode), agentLimits := Some(limits));
                 var plan := Plan(Setting(driver.store.size, sid, turnId, mode), request.(tools := definitions));
                 var first := Opening(plan.request, limits, startedAt, c.recordId + 1);
              if r.Ok? then
                && Delivered(driver, sid, NewTurn(turnId, requestId, now, None, input), r.value)
                && CameTo(plan, rounds, first, streamed, conversation, spent, r.value.receipt)
              else
                || (r.error == RuntimeFailed(Configuration) && !ValidRequest(request))
                || RunFails(driver, plan, rounds, first, conversation, streamed, r.error)
    ensures |driver.executions| - old(|driver.executions|) <= limits.maxToolCalls
    ensures r != Err(RuntimeFailed(Recovery))
    ensures Sound(driver)
    ensures Extends(old(driver.store.journal), driver.store.journal)
  {
    hide Extends, Delivered, ValidRequest, Step, StartError, RunFails, CameTo, Sound, Persisted, RequestIn, OpensTurn,
         JustStarted, ToolsFor, Opening, Driver.Ready;
    var c := Continue(driver.nextId, turnId, requestId, input, maxOutputTokens, now);
    conversation, streamed, spent := [], 0, Spending(limits, startedAt, 0, 0);
    var started := StartTurn(driver, c);
    if started.Err? {
      return Err(StoreFailed(started.error)), conversation, streamed, spent;
    }
    ghost var sid := old(driver.store.machine.activeSessionId.value);
    ghost var journal := driver.store.journal;
    var request := started.value.(tools := ToolsFor(definitions, mode), agentLimits := Some(limits));
    var valid := ValidateRequest(request);
    if !valid {
      return Err(RuntimeFailed(Configuration)), conversation, streamed, spent;
    }
    ReadyRuns(driver, sid);
    NewTurnOpens(started.value, request, sid, driver.Turn(sid));
    r, conversation, streamed, spent := DriveAgent(driver, sid, request, definitions, limits, mode, startedAt, rounds);
    if r.Err? {
      FailsOtherwise(driver, Plan(Setting(driver.store.size, sid, turnId, mode), request.(tools := definitions)),
                     rounds, Opening(request.(tools := definitions), limits, startedAt, c.recordId + 1), conversation,
                     streamed, r.error);
    }
    ExtendsPrefix(journal, driver.store.journal);
    ExtendsTrans(old(driver.store.journal), journal, driver.store.journal);
  }
}
