/** The driver's handling of one tool call: effects leave a queue in order, and each one is
    journaled, executed or published before the next. */
module ToolDriver {
  import opened Protocol
  import opened Session
  import opened JournalInvariant
  import opened ReplayLaws
  import opened Store
  import opened StoreRecovery
  import opened Invocation
  import opened Budget

  /** Everything the outside world decides about one call. */
  datatype ToolOracle = ToolOracle(
    cancelledEarly: bool,             // cancelled before the preflight
    preflight: Option<ToolResult>,    // the adapter's denial, if any
    approval: Option<ToolDecision>,   // the answer, or none when cancelled while waiting
    startNow: nat,                    // clock when the call is charged
    cancelledLate: bool,              // cancelled between the start record and execution
    execution: ToolResult,            // what the adapter returns
    resultBytes: nat,                 // its encoded size
    finishNow: nat)                   // clock when the result is charged

  // ---------------------------------------------------------------- adapters are not trusted

  function AdapterFault(inv: ToolInvocation, code: string): ToolResult {
    ResultFor(inv, Failed, code)
  }

  function NormalizeDecision(inv: ToolInvocation, d: ToolDecision): (n: ToolDecision)
    ensures n.callId == inv.call.callId && n.Valid()
    ensures if d.callId == inv.call.callId && d.Valid() then n == d else n.kind == Refused
  {
    if d.callId == inv.call.callId && d.Valid() then d
    else ToolDecision(inv.call.callId, Refused, "invalid_approval_decision")
  }

  function NormalizePreflight(inv: ToolInvocation, r: ToolResult): (n: ToolResult)
    requires inv.call.Valid()
    ensures CheckResult(inv, n).None? && n.status != Succeeded
    ensures n == r || (n.status == Failed && (CheckResult(inv, r).Some? || r.status == Succeeded))
  {
    if CheckResult(inv, r).None? && r.status != Succeeded then r
    else AdapterFault(inv, "invalid_preflight_result")
  }

  function NormalizeExecution(inv: ToolInvocation, r: ToolResult): (n: ToolResult)
    requires inv.call.Valid()
    ensures CheckResult(inv, n).None?
    ensures n == r || (n.status == Failed && CheckResult(inv, r).Some?)
  {
    if CheckResult(inv, r).None? then r else AdapterFault(inv, "invalid_tool_result")
  }

  // ---------------------------------------------------------------- how a call must end

  datatype Spending = Spending(limits: AgentLimits, startedAt: nat, calls: nat, bytes: nat)

  /** How a call ends: what the journal says of it, what it spent, and whether the tool ran.
      `Impossible` means that an adapter answered something the runtime cannot journal: how far the
      call gets, and the error it then meets. */
  datatype Verdict =
    | Impossible(at: Progress, error: DriverError)
    | Verdict(final: Progress, spent: Spending, executed: bool)

  /** How far the call gets, if every record fits. */
  function Promised(v: Verdict): Progress { if v.Verdict? then v.final else v.at }

  const JOURNAL_REFUSES: DriverError := StoreFailed(CommandRefused(Recovery))

  function Ended(decision: Option<ToolDecision>, started: bool, r: ToolResult, b: Spending, executed: bool): Verdict {
    Verdict(Progress(decision, started, Some(r)), b, executed)
  }

  function AfterStart(inv: ToolInvocation, o: ToolOracle, d: ToolDecision, b: Spending): Verdict
    requires inv.call.Valid()
  {
    if o.cancelledLate then Ended(Some(d), true, ResultFor(inv, Indeterminate, "effect_unknown"), b, false)
    else if TimeIsUp(b.limits, b.startedAt, o.finishNow) then
      Ended(Some(d), true, BudgetFailure(inv, Elapsed), b, true)
    else if b.bytes + o.resultBytes > b.limits.maxToolResultBytes then
      Ended(Some(d), true, BudgetFailure(inv, BytesExhausted), b, true)
    else
      var r := NormalizeExecution(inv, o.execution);
      if LegalAfterStart(r.toolName, r.status, r.code)
      then Ended(Some(d), true, r, b.(bytes := b.bytes + o.resultBytes), true)
      else Impossible(Progress(Some(d), true, None), InvocationFailed(InvalidTerminal))
  }

  function AfterApproval(inv: ToolInvocation, o: ToolOracle, d: ToolDecision, b: Spending): Verdict
    requires inv.call.Valid()
  {
    if TimeIsUp(b.limits, b.startedAt, o.startNow) then Ended(Some(d), false, BudgetFailure(inv, Elapsed), b, false)
    else if b.calls == b.limits.maxToolCalls then Ended(Some(d), false, BudgetFailure(inv, CallsExhausted), b, false)
    else AfterStart(inv, o, d, b.(calls := b.calls + 1))
  }

  function AfterAsking(inv: ToolInvocation, o: ToolOracle, b: Spending): Verdict
    requires inv.call.Valid()
  {
    if o.approval.None? then
      Ended(Some(ToolDecision(inv.call.callId, Refused, "cancelled")), false,
            ResultFor(inv, Cancelled, "cancelled_before_start"), b, false)
    else
      var d := NormalizeDecision(inv, o.approval.value);
      if d.kind == Refused then Ended(Some(d), false, ResultFor(inv, Rejected, d.code), b, false)
      else AfterApproval(inv, o, d, b)
  }

  /** The whole call, read straight through. */
  function CallVerdict(inv: ToolInvocation, mode: PermissionMode, o: ToolOracle, b: Spending): Verdict
    requires inv.call.Valid()
  {
    if o.cancelledEarly then
      Ended(None, false, ResultFor(inv, Cancelled, "cancelled_before_start"), b, false)
    else if o.preflight.Some? then
      var r := NormalizePreflight(inv, o.preflight.value);
      if r.status == Indeterminate then Impossible(Progress(None, false, None), JOURNAL_REFUSES)
      else Ended(None, false, r, b, false)
    else if mode == Confirm then AfterAsking(inv, o, b)
    else AfterApproval(inv, o, ToolDecision(inv.call.callId, DecisionKind.Approved, "policy_approved"), b)
  }

  /** What the world must answer for the call to be allowed: nobody cancels or denies it, and it needs no
      approval or has a valid one of its own. */
  predicate IsAllowed(inv: ToolInvocation, mode: PermissionMode, o: ToolOracle) {
    && !o.cancelledEarly && o.preflight.None?
    && (mode == FullAccess
        || (&& o.approval.Some? && o.approval.value.callId == inv.call.callId && ValidCode(o.approval.value.code)
            && o.approval.value.kind == DecisionKind.Approved))
  }

  /** An allowed call is charged if there is time and a call left. */
  predicate IsCharged(inv: ToolInvocation, mode: PermissionMode, o: ToolOracle, b: Spending) {
    && IsAllowed(inv, mode, o)
    && o.startNow - b.startedAt <= b.limits.maxElapsedMs && b.calls < b.limits.maxToolCalls
  }

  /** A result that comes in time and within the bytes left. */
  predicate IsInTime(o: ToolOracle, b: Spending) {
    o.finishNow - b.startedAt <= b.limits.maxElapsedMs && b.bytes + o.resultBytes <= b.limits.maxToolResultBytes
  }

  /** The answers that the journal cannot take: a denial that leaves the effect open, and a result that
      no started tool may have. */
  predicate IsImpossible(inv: ToolInvocation, mode: PermissionMode, o: ToolOracle, b: Spending) {
    || (&& !o.cancelledEarly && o.preflight.Some? && CheckResult(inv, o.preflight.value).None?
        && o.preflight.value.status == Indeterminate)
    || (&& IsCharged(inv, mode, o, b) && !o.cancelledLate && IsInTime(o, b) && CheckResult(inv, o.execution).None?
        && !LegalAfterStart(inv.call.name, o.execution.status, o.execution.code))
  }

  lemma ChargedGoesOn(inv: ToolInvocation, o: ToolOracle, d: ToolDecision, b: Spending)
    requires inv.call.Valid() && b.calls <= b.limits.maxToolCalls
    ensures var v := AfterApproval(inv, o, d, b);
            if o.startNow - b.startedAt <= b.limits.maxElapsedMs && b.calls < b.limits.maxToolCalls
            then v == AfterStart(inv, o, d, b.(calls := b.calls + 1))
            else
              && v.Verdict? && !v.executed && v.spent == b && v.final == Progress(Some(d), false, v.final.terminal)
              && v.final.terminal.Some? && v.final.terminal.value.status == Failed
  {
    hide AfterStart;
  }

  lemma StartedGoesOn(inv: ToolInvocation, o: ToolOracle, d: ToolDecision, b: Spending)
    requires inv.call.Valid()
    ensures var v := AfterStart(inv, o, d, b);
            if !o.cancelledLate && IsInTime(o, b) && CheckResult(inv, o.execution).None?
               && !LegalAfterStart(inv.call.name, o.execution.status, o.execution.code)
            then v.Impossible?
            else
              && v.Verdict? && v.final == Progress(Some(d), true, v.final.terminal) && v.final.terminal.Some?
              && (v.executed <==> !o.cancelledLate) && v.spent.calls == b.calls
              && v.spent.bytes == b.bytes + (if v.executed && IsInTime(o, b) then o.resultBytes else 0)
              && (v.final.terminal.value.status == Succeeded ==>
                    v.executed && IsInTime(o, b) && v.final.terminal.value == o.execution)
              && (v.final.terminal.value.status in {Rejected, Cancelled} ==> v.final.terminal.value == o.execution)
  {
  }

  /** When a tool runs, what it is charged, and when it succeeds: exactly when nobody stands in the way
      and budget and time allow it, once, and only by the adapter's own valid result. */
  lemma WhenItRuns(inv: ToolInvocation, mode: PermissionMode, o: ToolOracle, b: Spending)
    requires inv.call.Valid() && b.calls <= b.limits.maxToolCalls
    ensures var v := CallVerdict(inv, mode, o, b);
            var charged := IsCharged(inv, mode, o, b);
            && (v.Impossible? <==> IsImpossible(inv, mode, o, b))
            && (v.Verdict? ==>
                  && v.final.Progress? && v.final.terminal.Some? && v.final.started == charged
                  && (v.executed <==> charged && !o.cancelledLate)
                  && v.spent.calls == b.calls + (if charged then 1 else 0)
                  && v.spent.bytes == b.bytes + (if v.executed && IsInTime(o, b) then o.resultBytes else 0)
                  && (v.final.terminal.value.status == Succeeded ==>
                        v.executed && IsInTime(o, b) && v.final.terminal.value == o.execution)
                  && (v.final.decision.Some? && v.final.decision.value.kind == DecisionKind.Approved <==>
                      IsAllowed(inv, mode, o)))
  {
    hide AfterStart, AfterApproval, CheckResult, LegalAfterStart;
    var d := if mode == Confirm && o.approval.Some? then NormalizeDecision(inv, o.approval.value)
             else ToolDecision(inv.call.callId, DecisionKind.Approved, "policy_approved");
    ChargedGoesOn(inv, o, d, b);
    StartedGoesOn(inv, o, d, b.(calls := b.calls + 1));
  }

  /** The runtime's own result of a call. */
  predicate Says(inv: ToolInvocation, r: ToolResult, status: ToolStatus, code: string) {
    r == ToolResult(inv.call.callId, inv.call.name, status, code, None)
  }

  /** A well-formed result of this call and tool. */
  predicate IsItsOwn(inv: ToolInvocation, r: ToolResult) {
    r.Valid() && r.callId == inv.call.callId && r.toolName == inv.call.name
  }

  /** The decision that is journaled, told by what the world answers. */
  ghost predicate DecidedAs(inv: ToolInvocation, mode: PermissionMode, o: ToolOracle, d: Option<ToolDecision>) {
    if o.cancelledEarly || o.preflight.Some? then d.None?
    else if mode == FullAccess then
      d == Some(ToolDecision(inv.call.callId, DecisionKind.Approved, "policy_approved"))
    else if o.approval.None? then d == Some(ToolDecision(inv.call.callId, Refused, "cancelled"))
    else if o.approval.value.callId == inv.call.callId && ValidCode(o.approval.value.code) then d == o.approval
    else d == Some(ToolDecision(inv.call.callId, Refused, "invalid_approval_decision"))
  }

  /** The result of a call that was allowed: out of time, out of calls, cancelled, late, too long, or the
      tool's own. */
  ghost predicate AllowedEndsAs(inv: ToolInvocation, o: ToolOracle, b: Spending, r: ToolResult) {
    if o.startNow - b.startedAt > b.limits.maxElapsedMs then Says(inv, r, Failed, "elapsed_budget_exhausted")
    else if b.calls >= b.limits.maxToolCalls then Says(inv, r, Failed, "tool_call_budget_exhausted")
    else if o.cancelledLate then Says(inv, r, Indeterminate, "effect_unknown")
    else if o.finishNow - b.startedAt > b.limits.maxElapsedMs then Says(inv, r, Failed, "elapsed_budget_exhausted")
    else if b.bytes + o.resultBytes > b.limits.maxToolResultBytes then
      Says(inv, r, Failed, "tool_result_budget_exhausted")
    else if IsItsOwn(inv, o.execution) then r == o.execution
    else Says(inv, r, Failed, "invalid_tool_result")
  }

  ghost predicate EndsAsTold(inv: ToolInvocation, mode: PermissionMode, o: ToolOracle, b: Spending,
                             d: Option<ToolDecision>, r: ToolResult) {
    if o.cancelledEarly then Says(inv, r, Cancelled, "cancelled_before_start")
    else if o.preflight.Some? then
      if IsItsOwn(inv, o.preflight.value) && o.preflight.value.status != Succeeded then r == o.preflight.value
      else Says(inv, r, Failed, "invalid_preflight_result")
    else if mode == Confirm && o.approval.None? then Says(inv, r, Cancelled, "cancelled_before_start")
    else if d.Some? && d.value.kind == Refused then Says(inv, r, Rejected, d.value.code)
    else AllowedEndsAs(inv, o, b, r)
  }

  lemma ApprovedEnds(inv: ToolInvocation, o: ToolOracle, d: ToolDecision, b: Spending)
    requires inv.call.Valid() && b.calls <= b.limits.maxToolCalls && AfterApproval(inv, o, d, b).Verdict?
    ensures var v := AfterApproval(inv, o, d, b);
            && v.final.Progress? && v.final.decision == Some(d) && v.final.terminal.Some?
            && AllowedEndsAs(inv, o, b, v.final.terminal.value)
  {
    hide ValidCode, LegalAfterStart;
    BudgetCodeValid(Elapsed);
    ExhaustedCodeValid(CallsExhausted);
    BytesCodeValid();
  }

  /** The decision and the result that the journal is to hold for a call, from what the world answers. */
  lemma HowItEnds(inv: ToolInvocation, mode: PermissionMode, o: ToolOracle, b: Spending)
    requires inv.call.Valid() && b.calls <= b.limits.maxToolCalls && CallVerdict(inv, mode, o, b).Verdict?
    ensures var v := CallVerdict(inv, mode, o, b);
            && v.final.Progress? && v.final.terminal.Some? && DecidedAs(inv, mode, o, v.final.decision)
            && EndsAsTold(inv, mode, o, b, v.final.decision, v.final.terminal.value)
  {
    hide AfterApproval, AllowedEndsAs, ValidCode;
    if !o.cancelledEarly && o.preflight.None? {
      var d := if mode == Confirm && o.approval.Some? then NormalizeDecision(inv, o.approval.value)
               else ToolDecision(inv.call.callId, DecisionKind.Approved, "policy_approved");
      if d.kind == DecisionKind.Approved && (mode == FullAccess || o.approval.Some?) {
        ApprovedEnds(inv, o, d, b);
      }
    }
  }

  /** The verdict still ahead, seen from a machine state whose journal would next say `p`. */
  function Ahead(inv: ToolInvocation, o: ToolOracle, state: InvocationState, p: Progress, b: Spending, executed: bool)
    : Verdict
    requires inv.call.Valid()
  {
    match state
    case Requested => Impossible(p, JOURNAL_REFUSES)
    case AwaitingDecision => AfterAsking(inv, o, b)
    case Approved(d, _) => AfterApproval(inv, o, d, b)
    case Started(d, _) => AfterStart(inv, o, d, b)
    case Terminal(_) => Verdict(p, b, executed)
  }

  // ---------------------------------------------------------------- the queue

  /** What the queue may hold in each state; only a settled call has an empty queue. */
  predicate Queued(inv: ToolInvocation, state: InvocationState, pending: seq<InvocationEffect>,
                   published: Option<ToolResult>)
  {
    match state
    case Requested => published.None? && (pending == [] || pending == [PersistRequested(inv)])
    case AwaitingDecision => published.None? && pending == [RequestApproval(inv)]
    case Approved(d, _) => published.None? && pending == [PersistDecision(d)]
    case Started(_, mode) =>
      var run := Execute(inv, mode, Sandbox(mode));
      published.None? && (pending == [PersistStarted(inv.call.callId), run] || pending == [run])
    case Terminal(r) =>
      || (published.None? && |pending| == 3 && pending[0].PersistDecision? && pending[1..] == Ends(r).1)
      || (published.None? && pending == Ends(r).1)
      || (published.None? && pending == [PublishTerminal(r)])
      || (published == Some(r) && pending == [])
  }

  /** How much driving is left: machine state first, then queue length. */
  function Rank(state: InvocationState): nat {
    match state
    case Requested => 4
    case AwaitingDecision => 3
    case Approved(_, _) => 2
    case Started(_, _) => 1
    case Terminal(_) => 0
  }

  // ---------------------------------------------------------------- effects as journal edits

  function EditOf(e: InvocationEffect, now: nat): TurnEdit
    requires e.PersistRequested? || e.PersistDecision? || e.PersistStarted? || e.PersistTerminal?
  {
    match e
    case PersistRequested(i) => RequestTool(i, now)
    case PersistDecision(d) => DecideTool(d, now)
    case PersistStarted(id) => StartTool(id, now)
    case PersistTerminal(r) => FinishTool(r, now)
  }

  function ReportOf(e: InvocationEffect): TurnReport
    requires e.PersistRequested? || e.PersistDecision? || e.PersistStarted? || e.PersistTerminal?
  {
    match e
    case PersistRequested(i) => TurnReport.Requested(i)
    case PersistDecision(d) => TurnReport.Decided(d)
    case PersistStarted(id) => TurnReport.Started(id)
    case PersistTerminal(r) => TurnReport.Terminal(r)
  }

  predicate Persists(e: InvocationEffect) {
    e.PersistRequested? || e.PersistDecision? || e.PersistStarted? || e.PersistTerminal?
  }

  /** The turn's tools are `before`, then this call at the given progress. */
  ghost predicate CallAt(tools: seq<ToolRecord>, before: seq<ToolRecord>, inv: ToolInvocation, p: Progress) {
    if p.Unrequested? then tools == before
    else
      && |tools| == |before| + 1 && tools[..|before|] == before
      && tools[|before|].invocation == inv && ProgressOf(tools[|before|]) == p
  }

  lemma CallIsFound(tools: seq<ToolRecord>, before: seq<ToolRecord>, inv: ToolInvocation, p: Progress)
    requires CallAt(tools, before, inv, p)
    requires forall k :: 0 <= k < |before| ==> before[k].invocation.call.callId != inv.call.callId
    ensures ToolIndex(tools, inv.call.callId) == |before|
  {
    forall k | 0 <= k < |before| ensures tools[k].invocation.call.callId != inv.call.callId {
      assert tools[k] == tools[..|before|][k];
    }
  }

  /** The journal's edit and the effect's progress accept the same thing and reach the same place. */
  lemma EditPerforms(turn: TurnRecord, before: seq<ToolRecord>, inv: ToolInvocation, p: Progress,
                     e: InvocationEffect, now: nat)
    requires turn.status == Running && CallAt(turn.tools, before, inv, p) && Persists(e)
    requires forall k :: 0 <= k < |before| ==> before[k].invocation.call.callId != inv.call.callId
    requires inv.call.Valid() && (e.PersistRequested? ==> p.Unrequested? && e.invocation == inv)
    requires !e.PersistRequested? ==> p.Progress? && EditedCall(EditOf(e, now)) == inv.call.callId
    requires e.PersistTerminal? ==> e.result.toolName == inv.call.name
    requires e.PersistDecision? ==> !p.started
    ensures var t := EditTurn(turn, EditOf(e, now));
            && (t.Some? <==> Perform(inv, p, e).Some?)
            && (t.Some? ==>
                  && CallAt(t.value.tools, before, inv, Perform(inv, p, e).value)
                  && t.value == turn.(tools := t.value.tools))
  {
    CallIsFound(turn.tools, before, inv, p);
    if !e.PersistRequested? {
      var k := |before|;
      var t := turn.tools[k];
      var edited := EditTool(t, EditOf(e, now));
      if e.PersistTerminal? {
        var shape := ToolRecord(inv, 0, p.decision, None, if p.started then Some(0) else None, None, None);
        assert LegalTerminal(t, e.result) == LegalTerminal(shape, e.result);
      }
      if edited.Some? {
        assert turn.tools[k := edited.value][..k] == before;
      }
    }
  }

  // ---------------------------------------------------------------- driving, stage by stage

  /** A moment of driving: the machine, the queue, what was published, what the journal says,
      what was spent, and whether the tool ran. */
  datatype Stage = Stage(state: InvocationState, pending: seq<InvocationEffect>, published: Option<ToolResult>,
                         p: Progress, b: Spending, ran: bool)

  /** Carrying out the queue brings the journal up with the machine, and the verdict ahead never
      changes; only a result that the journal will refuse breaks this, and it heads the queue. */
  ghost predicate OnCourse(inv: ToolInvocation, o: ToolOracle, s: Stage, v: Verdict) {
    && inv.call.Valid()
    && Queued(inv, s.state, s.pending, s.published)
    && (if s.state.Terminal? then CheckResult(inv, s.state.result).None? else !s.ran)
    && var q := PerformAll(inv, s.p, s.pending);
    if q.Some? then
      && InSync(s.state, q.value)
      && (s.state.Requested? || Ahead(inv, o, s.state, q.value, s.b, s.ran) == v)
    else v == Impossible(s.p, JOURNAL_REFUSES) && s.state.Terminal? && s.pending == Ends(s.state.result).1
         && s.p.Progress?
  }

  lemma Pop(inv: ToolInvocation, o: ToolOracle, s: Stage, v: Verdict)
    requires OnCourse(inv, o, s, v) && s.pending != [] && !s.state.Approved?
    ensures var q := Perform(inv, s.p, s.pending[0]);
            && (q.None? ==> v == Impossible(s.p, JOURNAL_REFUSES) && s.state.Terminal?)
            && (Persists(s.pending[0]) && q.Some? ==>
                  OnCourse(inv, o, s.(pending := s.pending[1..], p := q.value), v))
  {
  }

  lemma PublishLast(inv: ToolInvocation, o: ToolOracle, s: Stage, v: Verdict)
    requires OnCourse(inv, o, s, v) && s.pending != [] && s.pending[0].PublishTerminal?
    ensures s.state.Terminal? && s.pending[0].result == s.state.result
    ensures OnCourse(inv, o, s.(pending := s.pending[1..], published := Some(s.state.result)), v)
  {
    assert s.pending[1..] == [];
  }

  /** A move of the machine on an empty queue keeps the course if it keeps the verdict ahead. */
  lemma Steer(inv: ToolInvocation, o: ToolOracle, s: Stage, v: Verdict, input: InvocationInput, next: Stage)
    requires inv.call.Valid() && InSync(s.state, s.p) && JournalTakes(s.state, input)
    requires Move(inv, s.state, input) == Ok((next.state, next.pending))
    requires next.p == s.p && next.published.None? && !next.state.Requested?
    requires Queued(inv, next.state, next.pending, None)
    requires if next.state.Terminal? then CheckResult(inv, next.state.result).None? else !next.ran
    requires forall q :: PerformAll(inv, s.p, next.pending) == Some(q) ==>
               Ahead(inv, o, next.state, q, next.b, next.ran) == v
    ensures OnCourse(inv, o, next, v)
  {
    MoveSimulated(inv, s.state, s.p, input);
  }

  lemma ResultForValid(inv: ToolInvocation, status: ToolStatus, code: string)
    requires inv.call.Valid() && ValidCode(code)
    ensures CheckResult(inv, ResultFor(inv, status, code)).None?
  {
  }

  /** Ending with a legal result leaves exactly that result in the journal. */
  lemma EndsAs(inv: ToolInvocation, p: Progress, r: ToolResult)
    requires p.Progress? && p.terminal.None?
    ensures forall q :: PerformAll(inv, p, Ends(r).1) == Some(q) ==> q == p.(terminal := Some(r))
  {
    PerformEnds(inv, p, r);
  }

  /** The answer to an approval request. */
  function ApprovalInput(inv: ToolInvocation, o: ToolOracle, mode: PermissionMode): InvocationInput {
    if o.approval.None? then Cancel else Decide(NormalizeDecision(inv, o.approval.value), mode)
  }

  lemma Answer(inv: ToolInvocation, o: ToolOracle, mode: PermissionMode, s: Stage, v: Verdict)
    requires OnCourse(inv, o, s, v) && s.pending != [] && s.pending[0].RequestApproval?
    ensures s.state == AwaitingDecision && s.pending[1..] == []
    ensures var moved := Move(inv, s.state, ApprovalInput(inv, o, mode));
            && moved.Ok? && Rank(moved.value.0) < Rank(s.state) && !moved.value.0.Started?
            && OnCourse(inv, o, s.(state := moved.value.0, pending := moved.value.1), v)
  {
    assert s.pending[1..] == [] && PerformAll(inv, s.p, []) == Some(s.p);
    FixedCodesValid();
    var input := ApprovalInput(inv, o, mode);
    var (state, effects) := Move(inv, s.state, input).value;
    var refused := Progress(Some(if o.approval.None? then ToolDecision(inv.call.callId, Refused, "cancelled")
                                 else input.decision), false, None);
    if state.Terminal? {
      ResultForValid(inv, state.result.status, state.result.code);
      EndsAs(inv, refused, state.result);
      assert effects[1..] == Ends(state.result).1 && Perform(inv, s.p, effects[0]) == Some(refused);
    } else {
      assert effects[1..] == [] && PerformAll(inv, refused.(decision := Some(input.decision)), []).Some?;
    }
    Steer(inv, o, s, v, input, s.(state := state, pending := effects));
  }

  /** Charging an approved call. */
  function ChargeInput(inv: ToolInvocation, error: Option<BudgetKind>): InvocationInput {
    if error.None? then Start else PreStartFailed(BudgetFailure(inv, error.value))
  }

  function ChargeError(o: ToolOracle, b: Spending): Option<BudgetKind> {
    if TimeIsUp(b.limits, b.startedAt, o.startNow) then Some(Elapsed)
    else if b.calls == b.limits.maxToolCalls then Some(CallsExhausted)
    else None
  }

  lemma Charge(inv: ToolInvocation, o: ToolOracle, s: Stage, v: Verdict)
    requires OnCourse(inv, o, s, v) && s.state.Approved?
    ensures s.pending == [PersistDecision(s.state.decision)] && Perform(inv, s.p, s.pending[0]).Some?
    ensures var error := ChargeError(o, s.b);
            var moved := Move(inv, s.state, ChargeInput(inv, error));
            && moved.Ok? && Rank(moved.value.0) < Rank(s.state)
            && (moved.value.0.Started? ==> error.None?)
            && OnCourse(inv, o, s.(state := moved.value.0, pending := moved.value.1,
                                   p := Perform(inv, s.p, s.pending[0]).value,
                                   b := if error.None? then s.b.(calls := s.b.calls + 1) else s.b), v)
  {
    var p := Perform(inv, s.p, s.pending[0]).value;
    assert s.pending[1..] == [] && PerformAll(inv, p, []) == Some(p);
    var error := ChargeError(o, s.b);
    var input := ChargeInput(inv, error);
    if error.Some? {
      BudgetFailureValid(inv, error.value);
      EndsAs(inv, p, BudgetFailure(inv, error.value));
    } else {
      PerformTwo(inv, p, PersistStarted(inv.call.callId), Execute(inv, s.state.mode, Sandbox(s.state.mode)));
    }
    var (state, effects) := Move(inv, s.state, input).value;
    Steer(inv, o, s.(p := p), v, input,
          s.(state := state, pending := effects, p := p,
             b := if error.None? then s.b.(calls := s.b.calls + 1) else s.b));
  }

  /** The result the driver feeds back after execution. */
  function Answered(inv: ToolInvocation, o: ToolOracle, b: Spending): (r: ToolResult)
    requires inv.call.Valid()
    ensures CheckResult(inv, r).None?
  {
    BudgetFailureValid(inv, Elapsed);
    BudgetFailureValid(inv, BytesExhausted);
    if TimeIsUp(b.limits, b.startedAt, o.finishNow) then BudgetFailure(inv, Elapsed)
    else if b.bytes + o.resultBytes > b.limits.maxToolResultBytes then BudgetFailure(inv, BytesExhausted)
    else NormalizeExecution(inv, o.execution)
  }

  function BytesCharged(o: ToolOracle, b: Spending): nat {
    if TimeIsUp(b.limits, b.startedAt, o.finishNow) || b.bytes + o.resultBytes > b.limits.maxToolResultBytes
    then 0 else o.resultBytes
  }

  lemma RunTool(inv: ToolInvocation, o: ToolOracle, s: Stage, v: Verdict)
    requires OnCourse(inv, o, s, v) && s.pending != [] && s.pending[0].Execute?
    ensures s.state.Started? && s.pending[1..] == [] && s.p.Progress? && s.p.started && s.p.terminal.None?
    ensures inv.call.Valid() && !s.ran
    ensures var input := if o.cancelledLate then Cancel else Complete(Answered(inv, o, s.b));
            var b := if o.cancelledLate then s.b else s.b.(bytes := s.b.bytes + BytesCharged(o, s.b));
            var moved := Move(inv, s.state, input);
            if moved.Err? then v == Impossible(s.p, InvocationFailed(moved.error))
            else
              && Rank(moved.value.0) < Rank(s.state)
              && OnCourse(inv, o,
                          s.(state := moved.value.0, pending := moved.value.1, b := b, ran := !o.cancelledLate), v)
  {
    assert s.pending[1..] == [] && PerformAll(inv, s.p, []) == Some(s.p);
    FixedCodesValid();
    var r := if o.cancelledLate then ResultFor(inv, Indeterminate, "effect_unknown") else Answered(inv, o, s.b);
    var input := if o.cancelledLate then Cancel else Complete(r);
    var moved := Move(inv, s.state, input);
    if moved.Ok? {
      EndsAs(inv, s.p, r);
      Steer(inv, o, s, v, input,
            s.(state := moved.value.0, pending := moved.value.1, ran := !o.cancelledLate,
               b := if o.cancelledLate then s.b else s.b.(bytes := s.b.bytes + BytesCharged(o, s.b))));
    }
  }

  lemma Opening(inv: ToolInvocation, o: ToolOracle, b: Spending, v: Verdict)
    requires inv.call.Valid()
    ensures OnCourse(inv, o, Stage(InvocationState.Requested, [PersistRequested(inv)], None, Unrequested, b, false), v)
  {
    assert [PersistRequested(inv)][1..] == [];
  }

  function PreflightInput(inv: ToolInvocation, mode: PermissionMode, o: ToolOracle): InvocationInput
    requires inv.call.Valid()
  {
    if o.cancelledEarly then Cancel
    else if o.preflight.Some? then PreflightDenied(NormalizePreflight(inv, o.preflight.value))
    else PreflightAllowed(mode)
  }

  lemma Preflight(inv: ToolInvocation, mode: PermissionMode, o: ToolOracle, b: Spending)
    requires inv.call.Valid()
    ensures var moved := Move(inv, InvocationState.Requested, PreflightInput(inv, mode, o));
            && moved.Ok? && !moved.value.0.Requested? && !moved.value.0.Started?
            && OnCourse(inv, o, Stage(moved.value.0, moved.value.1, None, Progress(None, false, None), b, false),
                        CallVerdict(inv, mode, o, b))
  {
    FixedCodesValid();
    var p := Progress(None, false, None);
    var input := PreflightInput(inv, mode, o);
    var (state, effects) := Move(inv, InvocationState.Requested, input).value;
    MoveSimulated(inv, InvocationState.Requested, p, input);
    if state.Terminal? {
      ResultForValid(inv, Cancelled, "cancelled_before_start");
      EndsAs(inv, p, state.result);
      assert effects == Ends(state.result).1;
    } else {
      assert effects[1..] == [];
    }
  }

  // ---------------------------------------------------------------- reporting to the store

  function ReportEdit(report: TurnReport, now: nat): TurnEdit {
    match report
    case Delta(delta) => AppendDelta(delta)
    case Requested(i) => RequestTool(i, now)
    case Decided(d) => DecideTool(d, now)
    case Started(id) => StartTool(id, now)
    case Terminal(r) => FinishTool(r, now)
  }

  function ReportRecord(sid: SessionId, tid: TurnId, report: TurnReport, now: nat): JournalRecord {
    match report
    case Delta(delta) => TurnDelta(sid, tid, delta, now)
    case Requested(i) => ToolRequested(sid, tid, i, now)
    case Decided(d) => ToolDecided(sid, tid, d, now)
    case Started(id) => ToolStarted(sid, tid, id, now)
    case Terminal(r) => ToolTerminal(sid, tid, r, now)
  }

  /** A report on the running turn is journaled exactly when the turn takes the edit. */
  lemma ReportStep(m: Machine, sid: SessionId, rid: RecordId, report: TurnReport, now: nat)
    requires JournalOk(m.journal) && RunsLast(m.journal, sid) && rid !in m.seen
    ensures var tid := LastTurn(m.journal, sid).turnId;
            var t := EditTurn(LastTurn(m.journal, sid), ReportEdit(report, now));
            var env := Envelope(rid, ReportRecord(sid, tid, report, now));
            Step(m, Report(rid, tid, report, now))
            == if t.None? then (m, Err(Recovery))
               else (Machine(WithLast(m.journal, sid, t.value, now), m.seen[rid := env]), Ok([Effect.Persist(env)]))
  {
    hide JournalOk, EditTurn;
    var tid := LastTurn(m.journal, sid).turnId;
    RunningIsFound(m.journal, sid);
    EditLast(m.journal, sid, ReportEdit(report, now), now);
    hide EditSession;
    var env := Envelope(rid, ReportRecord(sid, tid, report, now));
    assert ApplyRecord(m.journal, env.record) == EditSession(m.journal, sid, tid, ReportEdit(report, now), now);
    assert [Effect.Persist(env)] + [] == [Effect.Persist(env)];
  }

  lemma ReportNames(sid: SessionId, tid: TurnId, inv: ToolInvocation, p: Progress, e: InvocationEffect, now: nat)
    requires Persists(e) && Carries(inv, p, e, now) && inv.call.Valid()
    ensures NamesTool(ReportRecord(sid, tid, ReportOf(e), now))
  {
  }

  lemma PersistsOne(env: Envelope)
    ensures Persisted(Ok([Effect.Persist(env)])) == [env]
  {
    PersistedPrefix(env, []);
    assert [Effect.Persist(env)] + [] == [Effect.Persist(env)];
  }

  // ---------------------------------------------------------------- what a call writes

  /** The reports that bring a call to this progress, in order. */
  function Told(inv: ToolInvocation, p: Progress): seq<TurnReport> {
    if p.Unrequested? then [] else
    [TurnReport.Requested(inv)]
    + (if p.decision.Some? then [TurnReport.Decided(p.decision.value)] else [])
    + (if p.started then [TurnReport.Started(inv.call.callId)] else [])
    + (if p.terminal.Some? then [TurnReport.Terminal(p.terminal.value)] else [])
  }

  function CallRecords(sid: SessionId, tid: TurnId, reports: seq<TurnReport>, id: nat, now: nat): (log: seq<Envelope>)
    ensures |log| == |reports|
  {
    seq(|reports|, k requires 0 <= k < |reports| => Envelope(id + k, ReportRecord(sid, tid, reports[k], now)))
  }

  /** The call cannot be completed: an adapter's answer cannot be journaled, or one of the call's
      records does not fit a line of the journal. */
  predicate Blocked(size: Sizes, sid: SessionId, tid: TurnId, inv: ToolInvocation, v: Verdict, id: nat, now: nat) {
    v.Impossible? || !LogFits(size, CallRecords(sid, tid, Told(inv, v.final), id, now))
  }

  /** The error of a blocked call: a record that does not fit comes first. */
  function BlockedError(size: Sizes, sid: SessionId, tid: TurnId, inv: ToolInvocation, v: Verdict, id: nat, now: nat)
    : DriverError
  {
    if v.Impossible? && LogFits(size, CallRecords(sid, tid, Told(inv, v.at), id, now)) then v.error
    else StoreFailed(RecordTooLarge)
  }

  lemma LogFitsMore(size: Sizes, log: seq<Envelope>, env: Envelope)
    ensures LogFits(size, log + [env]) <==> LogFits(size, log) && Fits(size, env)
  {
    assert forall i :: 0 <= i < |log| ==> (log + [env])[i] == log[i];
    assert (log + [env])[|log|] == env;
  }

  lemma ImpossibleBlocks(size: Sizes, sid: SessionId, tid: TurnId, inv: ToolInvocation, v: Verdict, id: nat, now: nat)
    ensures v.Impossible? ==> Blocked(size, sid, tid, inv, v, id, now)
    ensures v.Impossible? && LogFits(size, CallRecords(sid, tid, Told(inv, v.at), id, now)) ==>
              BlockedError(size, sid, tid, inv, v, id, now) == v.error
  {
  }

  lemma PerformTells(inv: ToolInvocation, p: Progress, e: InvocationEffect)
    requires Perform(inv, p, e).Some?
    ensures Told(inv, Perform(inv, p, e).value) == Told(inv, p) + (if Persists(e) then [ReportOf(e)] else [])
  {
  }

  lemma {:induction false} PerformAllTells(inv: ToolInvocation, p: Progress, effects: seq<InvocationEffect>)
    requires PerformAll(inv, p, effects).Some?
    ensures Told(inv, p) <= Told(inv, PerformAll(inv, p, effects).value)
    decreases effects
  {
    hide Told, Perform;
    if effects != [] {
      PerformTells(inv, p, effects[0]);
      PerformAllTells(inv, Perform(inv, p, effects[0]).value, effects[1..]);
    }
  }

  lemma AheadTells(inv: ToolInvocation, o: ToolOracle, state: InvocationState, p: Progress, b: Spending, executed: bool)
    requires inv.call.Valid() && InSync(state, p) && !state.Requested?
    ensures var v := Ahead(inv, o, state, p, b, executed);
            Promised(v).Progress? && Told(inv, p) <= Told(inv, Promised(v))
  {
    hide BudgetFailure, ResultFor, LegalAfterStart, NormalizeExecution, NormalizeDecision, TimeIsUp, CheckResult,
         ValidCode;
  }

  /** What is journaled next is part of what the verdict says. */
  lemma HeadIsTold(inv: ToolInvocation, o: ToolOracle, s: Stage, v: Verdict)
    requires OnCourse(inv, o, s, v) && s.pending != [] && Persists(s.pending[0])
             && Perform(inv, s.p, s.pending[0]).Some?
    requires Promised(v).Progress?
    ensures Told(inv, s.p) + [ReportOf(s.pending[0])] <= Told(inv, Promised(v))
  {
    HeadGoes(inv, o, s, v);
    hide Perform, Ahead, Move, CheckResult;
    PerformTells(inv, s.p, s.pending[0]);
    var q := PerformAll(inv, s.p, s.pending).value;
    PerformAllTells(inv, Perform(inv, s.p, s.pending[0]).value, s.pending[1..]);
    if !s.state.Requested? {
      AheadTells(inv, o, s.state, q, s.b, s.ran);
    }
  }

  /** If the head of the queue can be carried out, the whole queue can. */
  lemma HeadGoes(inv: ToolInvocation, o: ToolOracle, s: Stage, v: Verdict)
    requires OnCourse(inv, o, s, v) && s.pending != [] && Perform(inv, s.p, s.pending[0]).Some?
    ensures PerformAll(inv, s.p, s.pending).Some?
  {
    if s.state.Terminal? && s.pending == Ends(s.state.result).1 {
      PerformEnds(inv, s.p, s.state.result);
    }
  }

  /** A record of the call that does not fit blocks it. */
  lemma TooLargeBlocks(size: Sizes, sid: SessionId, tid: TurnId, inv: ToolInvocation, o: ToolOracle, s: Stage,
                       v: Verdict, id: nat, now: nat)
    requires OnCourse(inv, o, s, v) && s.pending != [] && Persists(s.pending[0])
             && Perform(inv, s.p, s.pending[0]).Some?
    requires Promised(v).Progress?
    requires !Fits(size, Envelope(id + |Told(inv, s.p)|, ReportRecord(sid, tid, ReportOf(s.pending[0]), now)))
    ensures Blocked(size, sid, tid, inv, v, id, now)
    ensures BlockedError(size, sid, tid, inv, v, id, now) == StoreFailed(RecordTooLarge)
  {
    hide OnCourse, Perform, Told, Fits, ReportRecord;
    HeadIsTold(inv, o, s, v);
    var k := |Told(inv, s.p)|;
    var all := Told(inv, Promised(v));
    assert all[k] == (Told(inv, s.p) + [ReportOf(s.pending[0])])[k];
    assert !Fits(size, CallRecords(sid, tid, all, id, now)[k]);
  }

  /** Where the writing of a call began: the log, the next record id, and the clock. */
  datatype Ledger = Ledger(log: seq<Envelope>, id: nat, now: nat)

  lemma OneMoreRecord(sid: SessionId, tid: TurnId, reports: seq<TurnReport>, report: TurnReport, id: nat, now: nat)
    ensures CallRecords(sid, tid, reports + [report], id, now)
            == CallRecords(sid, tid, reports, id, now) + [Envelope(id + |reports|, ReportRecord(sid, tid, report, now))]
  {
  }

  /** A started call has been charged, and so has every execution. */
  ghost predicate Paid(base: nat, state: InvocationState, ran: bool, calls: nat) {
    base <= calls && (state.Started? || ran ==> base < calls)
  }

  /** One execution: what ran, under which mode and sandbox, and the journal as it stood then. */
  datatype Execution = Execution(invocation: ToolInvocation, mode: PermissionMode, sandbox: SandboxPolicy,
                                 journal: seq<Envelope>)

  /** A journal that ends with the call's own start record, as it stood when the call ran. */
  ghost predicate RanAfterStart(journal: seq<Envelope>, sid: SessionId, start: TurnRecord, inv: ToolInvocation,
                                at: seq<Envelope>)
  {
    && at != [] && at <= journal
    && var last := at[|at| - 1].record;
    && last.ToolStarted? && last.sid == sid && last.tid == start.turnId && last.callId == inv.call.callId
  }

  /** The call has added its one execution to the earlier ones, or none. It ran as asked for, in the mode
      of the run, in the sandbox unless that mode is full access, and after its start was journaled. */
  ghost predicate RanOnce(executions: seq<Execution>, journal: seq<Envelope>, sid: SessionId, start: TurnRecord,
                          inv: ToolInvocation, mode: PermissionMode, before: seq<Execution>, ran: bool)
  {
    if ran then
      && |executions| == |before| + 1 && executions[..|before|] == before
      && var x := executions[|before|];
      && x.invocation == inv && x.mode == mode && (x.sandbox == Restricted <==> mode == Confirm)
      && RanAfterStart(journal, sid, start, inv, x.journal)
    else executions == before
  }

  lemma RanOnceStays(executions: seq<Execution>, journal: seq<Envelope>, later: seq<Envelope>, sid: SessionId,
                     start: TurnRecord, inv: ToolInvocation, mode: PermissionMode, before: seq<Execution>, ran: bool)
    requires RanOnce(executions, journal, sid, start, inv, mode, before, ran) && journal <= later
    ensures RanOnce(executions, later, sid, start, inv, mode, before, ran)
  {
  }

  /** An approved or started call is to run in this mode. */
  predicate Under(state: InvocationState, mode: PermissionMode) {
    state.Approved? || state.Started? ==> state.mode == mode
  }

  lemma StaysUnder(inv: ToolInvocation, state: InvocationState, input: InvocationInput, mode: PermissionMode)
    requires Under(state, mode) && Move(inv, state, input).Ok?
    requires input.Decide? || input.PreflightAllowed? ==> input.mode == mode
    ensures Under(Move(inv, state, input).value.0, mode)
  {
  }

  lemma EndsUnder(inv: ToolInvocation, o: ToolOracle, s: Stage, mode: PermissionMode)
    requires inv.call.Valid() && Under(s.state, mode)
    ensures var input := if o.cancelledLate then Cancel else Complete(Answered(inv, o, s.b));
            Move(inv, s.state, input).Ok? ==> Under(Move(inv, s.state, input).value.0, mode)
  {
  }

  /** What heads the queue of a started call runs that call in its mode, sandboxed unless that is full access. */
  lemma RunsAsAsked(inv: ToolInvocation, o: ToolOracle, s: Stage, v: Verdict, mode: PermissionMode)
    requires OnCourse(inv, o, s, v) && s.pending != [] && s.pending[0].Execute? && Under(s.state, mode)
    ensures s.pending[0].invocation == inv && s.pending[0].mode == mode
    ensures s.pending[0].sandbox == Restricted <==> mode == Confirm
  {
  }

  class Driver {
    const store: RuntimeStore
    var nextId: nat
    ghost var executions: seq<Execution>

    /** A turn of the active session runs, and record ids are issued above all known ones. */
    ghost predicate Ready(sid: SessionId)
      reads this`nextId, store, store.machine
    {
      && store.Valid() && LiveLog(store.journal)
      && store.machine.activeSessionId == Some(sid) && RunsLast(store.machine.Project(), sid)
      && sid !in store.finalized
      && forall id :: id in store.recordsById ==> id < nextId
    }

    ghost function Turn(sid: SessionId): TurnRecord
      reads store, store.machine
      requires RunsLast(store.machine.Project(), sid)
    {
      LastTurn(store.machine.Project(), sid)
    }

    constructor (store: RuntimeStore, nextId: nat)
      ensures this.store == store && this.nextId == nextId && executions == []
    {
      this.store, this.nextId, executions := store, nextId, [];
    }

    method RunningTurnId(ghost sid: SessionId) returns (tid: TurnId)
      requires Ready(sid)
      ensures tid == Turn(sid).turnId
    {
      var turns := store.machine.sessions[store.machine.activeSessionId.value].turns;
      tid := turns[|turns| - 1].turnId;
    }

    method Tell(ghost sid: SessionId, report: TurnReport, now: nat) returns (r: Result<(), StoreError>)
      requires Ready(sid)
      modifies this`nextId, store
      ensures Ready(sid)
      ensures store.machine == old(store.machine) || fresh(store.machine)
      ensures var t := EditTurn(old(Turn(sid)), ReportEdit(report, now));
              var env := Envelope(old(nextId), ReportRecord(sid, old(Turn(sid)).turnId, report, now));
              if t.None? then
                r == Err(CommandRefused(Recovery)) && store.journal == old(store.journal)
                && store.machine.Project() == old(store.machine.Project())
              else if !Fits(store.size, env) then
                r == Err(RecordTooLarge) && store.journal == old(store.journal)
                && store.machine.Project() == old(store.machine.Project())
              else
                r.Ok? && store.journal == old(store.journal) + [env]
                && store.machine.Project() == WithLast(old(store.machine.Project()), sid, t.value, now)
      ensures nextId == old(nextId) + 1
    {
      hide JournalOk, LiveLog, EditTurn, Step, ReusesId, Replay, Fits, LogFits;
      var tid := RunningTurnId(sid);
      var id := nextId;
      nextId := nextId + 1;
      LiveLogOk(store.journal);
      ghost var before := store.machine.View();
      ReportStep(before, sid, id, report, now);
      StillRunning(old(Turn(sid)), ReportEdit(report, now));
      PersistsOne(Envelope(id, ReportRecord(sid, tid, report, now)));
      NotAStart(before, Report(id, tid, report, now));
      var done := store.ApplyCommand(Report(id, tid, report, now));
      return if done.Ok? then Ok(()) else Err(done.error);
    }

    /** The call is at progress `p` in the running turn, after the tools it started with. */
    ghost predicate CallIs(sid: SessionId, start: TurnRecord, inv: ToolInvocation, p: Progress)
      reads this`nextId, store, store.machine
    {
      && Ready(sid)
      && Turn(sid) == start.(tools := Turn(sid).tools)
      && CallAt(Turn(sid).tools, start.tools, inv, p)
    }

    /** Since `at`, the call has written exactly its records so far, and they fit. */
    ghost predicate Wrote(at: Ledger, sid: SessionId, start: TurnRecord, inv: ToolInvocation, p: Progress)
      reads this`nextId, store
    {
      var records := CallRecords(sid, start.turnId, Told(inv, p), at.id, at.now);
      store.journal == at.log + records && LogFits(store.size, records) && nextId == at.id + |records|
    }

    /** Journals one effect: done exactly when the order of events allows it and its record fits. */
    method Carry(ghost sid: SessionId, ghost start: TurnRecord, inv: ToolInvocation, ghost p: Progress,
                 e: InvocationEffect, now: nat, ghost at: Ledger)
      returns (r: Result<(), StoreError>)
      requires CallIs(sid, start, inv, p) && CallIsNew(start.tools, inv) && Persists(e)
      requires Carries(inv, p, e, now)
      requires Wrote(at, sid, start, inv, p) && at.now == now
      modifies this`nextId, store
      ensures var env := Envelope(at.id + |Told(inv, p)|, ReportRecord(sid, start.turnId, ReportOf(e), now));
              && (r.Ok? <==> Perform(inv, p, e).Some? && Fits(store.size, env))
              && (r.Err? ==> r.error == if Perform(inv, p, e).Some? then RecordTooLarge else CommandRefused(Recovery))
      ensures r.Ok? ==>
                && CallIs(sid, start, inv, Perform(inv, p, e).value)
                && Wrote(at, sid, start, inv, Perform(inv, p, e).value)
      ensures r.Ok? ==> |store.journal| == |old(store.journal)| + 1 && old(store.journal) <= store.journal
      ensures r.Ok? ==> store.journal[|store.journal| - 1].record
                        == ReportRecord(sid, start.turnId, ReportOf(e), now)
      ensures r.Err? ==> CallIs(sid, start, inv, p) && store.journal == old(store.journal)
      ensures store.machine == old(store.machine) || fresh(store.machine)
      ensures Extends(old(store.journal), store.journal)
    {
      hide EditTurn, Perform, Extends, NamesTool, CallRecords, Told, Fits, LogFits, ReportRecord, CallAt, Carries,
           CallIsNew, LiveLog, RuntimeStore.Valid;
      ghost var before := store.machine.Project();
      ghost var edited := EditTurn(Turn(sid), ReportEdit(ReportOf(e), now));
      CarryEdits(sid, start, inv, p, e, now);
      if Perform(inv, p, e).Some? {
        PerformTells(inv, p, e);
        OneMoreRecord(sid, start.turnId, Told(inv, p), ReportOf(e), at.id, now);
      }
      ghost var env := Envelope(nextId, ReportRecord(sid, start.turnId, ReportOf(e), now));
      ExtendsSame(store.journal);
      ExtendsOne(store.journal, env);
      LogFitsMore(store.size, CallRecords(sid, start.turnId, Told(inv, p), at.id, now), env);
      r := Tell(sid, ReportOf(e), now);
      if edited.Some? {
        WithLastTwice(before, sid, edited.value, now, edited.value, now);
      }
      assert at.log + CallRecords(sid, start.turnId, Told(inv, p), at.id, now) + [env]
          == at.log + (CallRecords(sid, start.turnId, Told(inv, p), at.id, now) + [env]);
    }

    lemma CarryEdits(sid: SessionId, start: TurnRecord, inv: ToolInvocation, p: Progress, e: InvocationEffect, now: nat)
      requires CallIs(sid, start, inv, p) && CallIsNew(start.tools, inv) && Persists(e) && Carries(inv, p, e, now)
      ensures var t := EditTurn(Turn(sid), ReportEdit(ReportOf(e), now));
              && (t.Some? <==> Perform(inv, p, e).Some?)
              && (t.Some? ==>
                    && CallAt(t.value.tools, start.tools, inv, Perform(inv, p, e).value)
                    && t.value == Turn(sid).(tools := t.value.tools))
      ensures Driven(Envelope(nextId, ReportRecord(sid, start.turnId, ReportOf(e), now)))
    {
      EditPerforms(Turn(sid), start.tools, inv, p, e, now);
      assert ReportEdit(ReportOf(e), now) == EditOf(e, now);
      ReportNames(sid, start.turnId, inv, p, e, now);
    }

    /** Runs the tool, unless cancelled first, and feeds the machine what came of it. */
    method Run(machine: InvocationMachine, e: InvocationEffect, budget: AgentBudget, o: ToolOracle)
      returns (r: Result<seq<InvocationEffect>, InvocationError>)
      requires machine.invocation.call.Valid() && budget.Valid() && e.Execute?
      modifies this`executions, machine, budget
      ensures var b := old(Spending(budget.limits, budget.startedAt, budget.toolCalls, budget.toolResultBytes));
              var input := if o.cancelledLate then Cancel else Complete(Answered(machine.invocation, o, b));
              var moved := Move(machine.invocation, old(machine.state), input);
              && (if moved.Ok? then machine.state == moved.value.0 && r == Ok(moved.value.1)
                  else machine.state == old(machine.state) && r == Err(moved.error))
              && budget.toolResultBytes == b.bytes + if o.cancelledLate then 0 else BytesCharged(o, b)
      ensures budget.Valid() && budget.toolCalls == old(budget.toolCalls)
      ensures budget.providerRounds == old(budget.providerRounds)
      ensures executions == old(executions) +
                            if o.cancelledLate then []
                            else [Execution(e.invocation, e.mode, e.sandbox, store.journal)]
    {
      hide Move;
      var input := Cancel;
      if !o.cancelledLate {
        executions := executions + [Execution(e.invocation, e.mode, e.sandbox, store.journal)];
        var result := NormalizeExecution(machine.invocation, o.execution);
        var error := budget.ConsumeResultBytes(o.resultBytes, o.finishNow);
        input := Complete(if error.Some? then BudgetFailure(machine.invocation, error.value) else result);
      }
      r := machine.Apply(input);
    }

    ghost function Spent(budget: AgentBudget): Spending
      reads budget
    {
      Spending(budget.limits, budget.startedAt, budget.toolCalls, budget.toolResultBytes)
    }

    /** While the tool is started and unsettled, the journal ends with its start record. */
    ghost predicate StartIsLast(sid: SessionId, start: TurnRecord, inv: ToolInvocation, p: Progress)
      reads store
    {
      p.Progress? && p.started && p.terminal.None? ==>
        RanAfterStart(store.journal, sid, start, inv, store.journal)
    }

    /** Journals the effect at the head of the queue; an approved call is then charged and started. */
    method Deliver(ghost sid: SessionId, ghost start: TurnRecord, machine: InvocationMachine, budget: AgentBudget,
                   o: ToolOracle, e: InvocationEffect, now: nat, ghost s: Stage, ghost v: Verdict, ghost base: nat,
                   ghost at: Ledger, ghost mode: PermissionMode)
      returns (r: Result<seq<InvocationEffect>, DriverError>, ghost p: Progress)
      requires CallIs(sid, start, machine.invocation, s.p) && CallIsNew(start.tools, machine.invocation)
      requires OnCourse(machine.invocation, o, s, v) && s.pending != [] && s.pending[0] == e && Persists(e)
      requires budget.Valid() && s.state == machine.state && s.b == Spent(budget)
      requires Paid(base, s.state, s.ran, s.b.calls) && Under(s.state, mode)
      requires Wrote(at, sid, start, machine.invocation, s.p) && at.now == now && Promised(v).Progress?
      modifies this`nextId, store, machine, budget
      ensures Paid(base, machine.state, s.ran, budget.toolCalls) && Under(machine.state, mode)
      ensures CallIs(sid, start, machine.invocation, p) && budget.Valid()
      ensures store.machine == old(store.machine) || fresh(store.machine)
      ensures budget.providerRounds == old(budget.providerRounds)
      ensures r.Err? ==>
                && !r.error.RuntimeFailed? && Blocked(store.size, sid, start.turnId, machine.invocation, v, at.id, now)
                && r.error == BlockedError(store.size, sid, start.turnId, machine.invocation, v, at.id, now)
      ensures old(store.journal) <= store.journal && Extends(old(store.journal), store.journal)
      ensures r.Ok? ==>
                && OnCourse(machine.invocation, o,
                            Stage(machine.state, s.pending[1..] + r.value, s.published, p, Spent(budget), s.ran), v)
                && (Rank(machine.state) < Rank(s.state)
                    || (machine.state == s.state && r.value == [] && Spent(budget) == s.b))
                && (s.state.Requested? ==> machine.state == s.state)
                && StartIsLast(sid, start, machine.invocation, p) && Wrote(at, sid, start, machine.invocation, p)
    {
      hide OnCourse, Perform, PerformAll, Wrote, Blocked, Told, Fits, Move, EditTurn, LiveLog, CallAt, Ready,
           CallIsNew, Carries, Queued, Extends, BlockedError, LogFits;
      var inv := machine.invocation;
      p := s.p;
      HeadCarries(inv, o, s, v, now);
      if machine.state.Approved? {
        ApprovedQueuesDecision(inv, o, s, v);
        Charge(inv, o, s, v);
      } else {
        Pop(inv, o, s, v);
      }
      if Perform(inv, p, e).Some?
         && !Fits(store.size, Envelope(at.id + |Told(inv, p)|, ReportRecord(sid, start.turnId, ReportOf(e), now))) {
        TooLargeBlocks(store.size, sid, start.turnId, inv, o, s, v, at.id, now);
      }
      WroteFits(at, sid, start, inv, p);
      ImpossibleBlocks(store.size, sid, start.turnId, inv, v, at.id, now);
      var done := Carry(sid, start, inv, p, e, now, at);
      if done.Err? {
        return Err(StoreFailed(done.error)), p;
      }
      OnlyStartStarts(inv, p, e);
      p := Perform(inv, p, e).value;
      if !(e.PersistDecision? && machine.state.Approved?) {
        assert s.pending[1..] + [] == s.pending[1..];
        return Ok([]), p;
      }
      var error := budget.ConsumeToolCall(o.startNow);
      StaysUnder(inv, machine.state, ChargeInput(inv, error), mode);
      var next := machine.Apply(ChargeInput(inv, error));
      assert s.pending[1..] + next.value == next.value;
      return Ok(next.value), p;
    }

    /** Runs the started tool and takes what comes of it. */
    method HandleExecution(ghost sid: SessionId, ghost start: TurnRecord, machine: InvocationMachine,
                           e: InvocationEffect, budget: AgentBudget, o: ToolOracle, ghost s: Stage, ghost v: Verdict,
                           ghost before: seq<Execution>, ghost base: nat, ghost mode: PermissionMode)
      returns (r: Result<seq<InvocationEffect>, DriverError>, ghost ran: bool)
      requires OnCourse(machine.invocation, o, s, v) && s.pending != [] && s.pending[0] == e
      requires budget.Valid() && s.state == machine.state && s.b == Spent(budget)
      requires StartIsLast(sid, start, machine.invocation, s.p)
      requires RanOnce(executions, store.journal, sid, start, machine.invocation, mode, before, s.ran)
      requires Paid(base, s.state, s.ran, s.b.calls) && Under(s.state, mode) && e.Execute?
      modifies this`executions, machine, budget
      ensures Paid(base, machine.state, ran, budget.toolCalls) && budget.Valid() && Under(machine.state, mode)
      ensures budget.providerRounds == old(budget.providerRounds)
      ensures r.Err? ==> v == Impossible(s.p, r.error) && r.error.InvocationFailed?
      ensures RanOnce(executions, store.journal, sid, start, machine.invocation, mode, before, ran)
      ensures r.Ok? ==>
                && OnCourse(machine.invocation, o,
                            Stage(machine.state, s.pending[1..] + r.value, s.published, s.p, Spent(budget), ran), v)
                && Rank(machine.state) < Rank(s.state) && !s.state.Requested?
                && StartIsLast(sid, start, machine.invocation, s.p)
    {
      hide OnCourse, Move, Queued, RanAfterStart;
      var inv := machine.invocation;
      RunTool(inv, o, s, v);
      RunsAsAsked(inv, o, s, v, mode);
      EndsUnder(inv, o, s, mode);
      var next := Run(machine, e, budget, o);
      ran := !o.cancelledLate;
      if next.Err? {
        return Err(InvocationFailed(next.error)), ran;
      }
      assert s.pending[1..] + next.value == next.value;
      return Ok(next.value), ran;
    }

    /** Takes the effect at the head of the queue and does what it says. */
    method Handle(ghost sid: SessionId, ghost start: TurnRecord, machine: InvocationMachine,
                  budget: AgentBudget, mode: PermissionMode, o: ToolOracle, e: InvocationEffect, now: nat,
                  ghost s: Stage, ghost v: Verdict, ghost before: seq<Execution>, ghost base: nat, ghost at: Ledger)
      returns (r: Result<(seq<InvocationEffect>, Option<ToolResult>), DriverError>, ghost p: Progress, ghost ran: bool)
      requires CallIs(sid, start, machine.invocation, s.p) && CallIsNew(start.tools, machine.invocation)
      requires OnCourse(machine.invocation, o, s, v) && s.pending != [] && s.pending[0] == e
      requires budget.Valid() && s.state == machine.state && s.b == Spent(budget)
      requires StartIsLast(sid, start, machine.invocation, s.p)
      requires RanOnce(executions, store.journal, sid, start, machine.invocation, mode, before, s.ran)
      requires Paid(base, s.state, s.ran, s.b.calls) && Under(s.state, mode)
      requires Wrote(at, sid, start, machine.invocation, s.p) && at.now == now && Promised(v).Progress?
      modifies this, store, machine, budget
      ensures Paid(base, machine.state, ran, budget.toolCalls) && Under(machine.state, mode)
      ensures CallIs(sid, start, machine.invocation, p) && budget.Valid()
      ensures store.machine == old(store.machine) || fresh(store.machine)
      ensures budget.providerRounds == old(budget.providerRounds)
      ensures r.Err? ==>
                && !r.error.RuntimeFailed? && Blocked(store.size, sid, start.turnId, machine.invocation, v, at.id, now)
                && r.error == BlockedError(store.size, sid, start.turnId, machine.invocation, v, at.id, now)
      ensures RanOnce(executions, store.journal, sid, start, machine.invocation, mode, before, ran)
      ensures Extends(old(store.journal), store.journal)
      ensures r.Ok? ==>
                var published := if r.value.1.Some? then r.value.1 else s.published;
                && OnCourse(machine.invocation, o,
                            Stage(machine.state, s.pending[1..] + r.value.0, published, p, Spent(budget), ran), v)
                && (Rank(machine.state) < Rank(s.state)
                    || (machine.state == s.state && r.value.0 == [] && Spent(budget) == s.b))
                && (s.state.Requested? ==> machine.state == s.state)
                && StartIsLast(sid, start, machine.invocation, p) && Wrote(at, sid, start, machine.invocation, p)
    {
      hide OnCourse, Wrote, Blocked, Move, EditTurn, CallAt, Ready, CallIsNew, Queued, RanAfterStart, Extends, RanOnce;
      ExtendsSame(store.journal);
      var inv := machine.invocation;
      p, ran := s.p, s.ran;
      match e {
        case RequestApproval(_) =>
          Answer(inv, o, mode, s, v);
          StaysUnder(inv, machine.state, ApprovalInput(inv, o, mode), mode);
          var next := machine.Apply(ApprovalInput(inv, o, mode));
          assert s.pending[1..] + next.value == next.value;
          return Ok((next.value, None)), p, ran;
        case PublishTerminal(result) =>
          PublishLast(inv, o, s, v);
          assert s.pending[1..] + [] == s.pending[1..];
          return Ok(([], Some(result))), p, ran;
        case Execute(_, _, _) =>
          var next;
          WroteFits(at, sid, start, inv, p);
          ImpossibleBlocks(store.size, sid, start.turnId, inv, v, at.id, now);
          next, ran := HandleExecution(sid, start, machine, e, budget, o, s, v, before, base, mode);
          return Unpublished(next), p, ran;
        case PersistRequested(_) | PersistDecision(_) | PersistStarted(_) | PersistTerminal(_) =>
          ghost var journal := store.journal;
          var next;
          next, p := Deliver(sid, start, machine, budget, o, e, now, s, v, base, at, mode);
          RanOnceStays(executions, journal, store.journal, sid, start, inv, mode, before, ran);
          return Unpublished(next), p, ran;
      }
    }

    /** Drives one call: effects leave the queue in order; what the machine emits joins its end. */
    method ApplyEffects(ghost sid: SessionId, ghost start: TurnRecord, machine: InvocationMachine,
                        effects: seq<InvocationEffect>, mode: PermissionMode, budget: AgentBudget,
                        o: ToolOracle, now: nat, ghost p0: Progress, ghost v: Verdict, ghost at: Ledger)
      returns (r: Result<Option<ToolResult>, DriverError>, ghost p: Progress, ghost ran: bool)
      requires CallIs(sid, start, machine.invocation, p0) && CallIsNew(start.tools, machine.invocation)
      requires budget.Valid() && (p0.Progress? ==> !p0.started) && !machine.state.Started?
      requires OnCourse(machine.invocation, o, Stage(machine.state, effects, None, p0, Spent(budget), false), v)
      requires Under(machine.state, mode)
      requires Wrote(at, sid, start, machine.invocation, p0) && at.now == now && Promised(v).Progress?
      modifies this, store, machine, budget
      ensures CallIs(sid, start, machine.invocation, p) && budget.Valid()
      ensures store.machine == old(store.machine) || fresh(store.machine)
      ensures budget.providerRounds == old(budget.providerRounds)
      ensures RanOnce(executions, store.journal, sid, start, machine.invocation, mode, old(executions), ran)
      ensures r.Err? ==>
                && !r.error.RuntimeFailed? && Blocked(store.size, sid, start.turnId, machine.invocation, v, at.id, now)
                && r.error == BlockedError(store.size, sid, start.turnId, machine.invocation, v, at.id, now)
      ensures Extends(old(store.journal), store.journal)
      ensures Paid(old(budget.toolCalls), machine.state, ran, budget.toolCalls)
      ensures r.Ok? ==> Wrote(at, sid, start, machine.invocation, p)
      ensures old(machine.state).Requested? && r.Ok? ==>
                && r == Ok(None) && machine.state == old(machine.state)
                && p == Progress(None, false, None) && Spent(budget) == old(Spent(budget)) && !ran
      ensures !old(machine.state).Requested? ==>
                && (r.Ok? <==> !Blocked(store.size, sid, start.turnId, machine.invocation, v, at.id, now))
                && (r.Ok? ==>
                      && r.value.Some? && p.Progress? && p.terminal == r.value
                      && v == Verdict(p, Spent(budget), ran))
    {
      hide OnCourse, CallIs, CallIsNew, RanOnce, StartIsLast, Extends, Wrote, Blocked;
      ExtendsSame(store.journal);
      var inv := machine.invocation;
      var pending := effects;
      var published: Option<ToolResult> := None;
      ghost var asked := machine.state.Requested?;
      p, ran := p0, false;
      ghost var base := budget.toolCalls;
      BeforeAnyStart(sid, start, inv, p, mode);
      while pending != []
        invariant CallIs(sid, start, inv, p) && budget.Valid() && Wrote(at, sid, start, inv, p)
        invariant store.machine == old(store.machine) || fresh(store.machine)
        invariant OnCourse(inv, o, Stage(machine.state, pending, published, p, Spent(budget), ran), v)
        invariant budget.providerRounds == old(budget.providerRounds)
        invariant Paid(base, machine.state, ran, budget.toolCalls) && Under(machine.state, mode)
        invariant Extends(old(store.journal), store.journal)
        invariant if asked then machine.state.Requested? && Spent(budget) == old(Spent(budget)) && !ran
                  else !machine.state.Requested?
        invariant RanOnce(executions, store.journal, sid, start, inv, mode, old(executions), ran)
                  && StartIsLast(sid, start, inv, p)
        decreases Rank(machine.state), |pending|
      {
        ghost var s := Stage(machine.state, pending, published, p, Spent(budget), ran);
        NeverRunsUnasked(inv, o, s, v);
        ghost var journal := store.journal;
        var next;
        next, p, ran := Handle(sid, start, machine, budget, mode, o, pending[0], now, s, v, old(executions), base, at);
        ExtendsTrans(old(store.journal), journal, store.journal);
        if next.Err? {
          return Err(next.error), p, ran;
        }
        pending := pending[1..] + next.value.0;
        published := if next.value.1.Some? then next.value.1 else published;
        NeverRunsUnasked(inv, o, Stage(machine.state, pending, published, p, Spent(budget), ran), v);
      }
      Settled(inv, o, Stage(machine.state, pending, published, p, Spent(budget), ran), v);
      if !machine.state.Requested? {
        WroteAll(at, sid, start, inv, v);
      }
      r := Ok(published);
    }

    lemma WroteFits(at: Ledger, sid: SessionId, start: TurnRecord, inv: ToolInvocation, p: Progress)
      requires Wrote(at, sid, start, inv, p)
      ensures LogFits(store.size, CallRecords(sid, start.turnId, Told(inv, p), at.id, at.now))
    {
    }

    lemma WroteAll(at: Ledger, sid: SessionId, start: TurnRecord, inv: ToolInvocation, v: Verdict)
      requires v.Verdict? && Wrote(at, sid, start, inv, v.final)
      ensures !Blocked(store.size, sid, start.turnId, inv, v, at.id, at.now)
    {
    }

    lemma BeforeAnyStart(sid: SessionId, start: TurnRecord, inv: ToolInvocation, p: Progress, mode: PermissionMode)
      requires p.Progress? ==> !p.started
      ensures StartIsLast(sid, start, inv, p)
      ensures RanOnce(executions, store.journal, sid, start, inv, mode, executions, false)
    {
    }

    lemma NothingWritten(sid: SessionId, start: TurnRecord, inv: ToolInvocation, now: nat)
      ensures Wrote(Ledger(store.journal, nextId, now), sid, start, inv, Unrequested)
    {
      assert store.journal + [] == store.journal;
    }

    /** One tool call from request to result. It completes exactly when the adapters answer something
        the runtime can journal and every record of it fits; then the journal gains those records, and
        the budget and the result are the verdict's. */
    method CompleteInvocation(ghost sid: SessionId, inv: ToolInvocation, mode: PermissionMode,
                              budget: AgentBudget, o: ToolOracle, now: nat)
      returns (r: Result<ToolResult, DriverError>)
      requires Ready(sid) && CallIsNew(Turn(sid).tools, inv) && budget.Valid()
      modifies this, store, budget
      ensures Ready(sid) && budget.Valid() && budget.providerRounds == old(budget.providerRounds)
      ensures store.machine == old(store.machine) || fresh(store.machine)
      ensures |executions| - old(|executions|) <= budget.toolCalls - old(budget.toolCalls)
      ensures Extends(old(store.journal), store.journal)
      ensures var v := CallVerdict(inv, mode, o, old(Spent(budget)));
              && (r.Ok? <==> !Blocked(store.size, sid, old(Turn(sid)).turnId, inv, v, old(nextId), now))
              && (r.Err? ==>
                    && !r.error.RuntimeFailed?
                    && r.error == BlockedError(store.size, sid, old(Turn(sid)).turnId, inv, v, old(nextId), now))
              && (r.Ok? ==>
                    && Wrote(Ledger(old(store.journal), old(nextId), now), sid, old(Turn(sid)), inv, v.final)
                    && CallIs(sid, old(Turn(sid)), inv, v.final)
                    && v.final == Progress(v.final.decision, v.final.started, Some(r.value))
                    && v.spent == Spent(budget)
                    && RanOnce(executions, store.journal, sid, old(Turn(sid)), inv, mode, old(executions), v.executed))
    {
      hide OnCourse, Move, CallVerdict, CallAt, RanAfterStart, Extends, Wrote, Blocked;
      ghost var at := Ledger(store.journal, nextId, now);
      NothingWritten(sid, Turn(sid), inv, now);
      ghost var start := Turn(sid);
      ghost var b := Spent(budget);
      ghost var v := CallVerdict(inv, mode, o, b);
      var machine := new InvocationMachine(inv);
      Opening(inv, o, b, v);
      VerdictEnds(inv, mode, o, b);
      CallStarts(start, inv);
      var requested, p, ran :=
        ApplyEffects(sid, start, machine, [PersistRequested(inv)], mode, budget, o, now, Unrequested, v, at);
      if requested.Err? {
        return Err(requested.error);
      }
      ghost var journal := store.journal;
      Preflight(inv, mode, o, b);
      StaysUnder(inv, machine.state, PreflightInput(inv, mode, o), mode);
      var effects := machine.Apply(PreflightInput(inv, mode, o));
      var closed;
      closed, p, ran := ApplyEffects(sid, start, machine, effects.value, mode, budget, o, now,
                                     Progress(None, false, None), v, at);
      ExtendsTrans(old(store.journal), journal, store.journal);
      return if closed.Err? then Err(closed.error) else Ok(closed.value.value);
    }
  }

  datatype DriverError =
    | StoreFailed(error: StoreError)
    | InvocationFailed(kind: InvocationError)
    | RuntimeFailed(code: RuntimeErrorCode)

  /** More effects, and nothing published. */
  function Unpublished(next: Result<seq<InvocationEffect>, DriverError>)
    : Result<(seq<InvocationEffect>, Option<ToolResult>), DriverError>
  {
    if next.Err? then Err(next.error) else Ok((next.value, None))
  }

  lemma VerdictEnds(inv: ToolInvocation, mode: PermissionMode, o: ToolOracle, b: Spending)
    requires inv.call.Valid()
    ensures var v := CallVerdict(inv, mode, o, b); Promised(v).Progress? && (v.Verdict? ==> v.final.terminal.Some?)
  {
    hide BudgetFailure, ResultFor, LegalAfterStart, NormalizeExecution, NormalizeDecision, NormalizePreflight, TimeIsUp;
  }

  ghost predicate CallIsNew(tools: seq<ToolRecord>, inv: ToolInvocation) {
    inv.call.Valid() && forall k :: 0 <= k < |tools| ==> tools[k].invocation.call.callId != inv.call.callId
  }

  /** The effect is one about this call, at a point of the call where it can come up. */
  ghost predicate Carries(inv: ToolInvocation, p: Progress, e: InvocationEffect, now: nat)
    requires Persists(e)
  {
    && (e.PersistRequested? ==> p.Unrequested? && e.invocation == inv)
    && (!e.PersistRequested? ==> p.Progress? && EditedCall(EditOf(e, now)) == inv.call.callId)
    && (e.PersistTerminal? ==> e.result.toolName == inv.call.name)
    && (e.PersistDecision? ==> !p.started)
  }

  lemma HeadCarries(inv: ToolInvocation, o: ToolOracle, s: Stage, v: Verdict, now: nat)
    requires OnCourse(inv, o, s, v) && s.pending != [] && Persists(s.pending[0])
    ensures Carries(inv, s.p, s.pending[0], now)
  {
  }

  lemma CallStarts(start: TurnRecord, inv: ToolInvocation)
    ensures CallAt(start.tools, start.tools, inv, Unrequested)
  {
  }

  lemma NeverRunsUnasked(inv: ToolInvocation, o: ToolOracle, s: Stage, v: Verdict)
    requires OnCourse(inv, o, s, v)
    ensures s.state.Requested? ==> !s.ran
  {
  }

  /** An empty queue means a settled call: published and journaled as the verdict said. */
  lemma Settled(inv: ToolInvocation, o: ToolOracle, s: Stage, v: Verdict)
    requires OnCourse(inv, o, s, v) && s.pending == []
    ensures if s.state.Requested? then s.published.None? && s.p == Progress(None, false, None)
            else s.published.Some? && s.p.Progress? && s.p.terminal == s.published && v == Verdict(s.p, s.b, s.ran)
  {
  }

  lemma ApprovedQueuesDecision(inv: ToolInvocation, o: ToolOracle, s: Stage, v: Verdict)
    requires OnCourse(inv, o, s, v) && s.pending != [] && s.state.Approved?
    ensures s.pending[0].PersistDecision?
  {
  }

  lemma OnlyStartStarts(inv: ToolInvocation, p: Progress, e: InvocationEffect)
    requires Persists(e) && Perform(inv, p, e).Some?
    ensures var q := Perform(inv, p, e).value;
            q.Progress? && q.started && q.terminal.None? ==> e.PersistStarted? && e.callId == inv.call.callId
  {
  }

  lemma NotAStart(m: Machine, c: Command)
    requires c.Report? || c.Finalize?
    ensures !ReusesId(m, c)
  {
  }

  lemma StillRunning(turn: TurnRecord, edit: TurnEdit)
    requires !edit.Finish?
    ensures EditTurn(turn, edit).Some? ==> EditTurn(turn, edit).value.status == Running
  {
  }
}
