/** One tool invocation: its machine, the budget it draws on, and the journal that must follow it. */
module Invocation {
  import opened Protocol
  import opened Session

  datatype PermissionMode = Confirm | FullAccess
  datatype SandboxPolicy = Restricted | Disabled

  function Sandbox(mode: PermissionMode): SandboxPolicy {
    if mode == Confirm then Restricted else Disabled
  }

  datatype InvocationState =
    | Requested
    | AwaitingDecision
    | Approved(decision: ToolDecision, mode: PermissionMode)
    | Started(decision: ToolDecision, mode: PermissionMode)
    | Terminal(result: ToolResult)

  datatype InvocationInput =
    | PreflightAllowed(mode: PermissionMode)
    | PreflightDenied(result: ToolResult)
    | PreStartFailed(result: ToolResult)
    | Decide(decision: ToolDecision, mode: PermissionMode)
    | Start
    | Complete(result: ToolResult)
    | Cancel
    | Recover

  datatype InvocationEffect =
    | PersistRequested(invocation: ToolInvocation)
    | RequestApproval(invocation: ToolInvocation)
    | PersistDecision(decision: ToolDecision)
    | PersistStarted(callId: CallId)
    | Execute(invocation: ToolInvocation, mode: PermissionMode, sandbox: SandboxPolicy)
    | PersistTerminal(result: ToolResult)
    | PublishTerminal(result: ToolResult)

  datatype InvocationError =
    | InvalidTransition | WrongCallId | WrongToolName | DuplicateCallId | DuplicateDecision
    | DuplicateStarted | DuplicateTerminal | InvalidTerminal

  type Moved = Result<(InvocationState, seq<InvocationEffect>), InvocationError>

  function ResultFor(inv: ToolInvocation, status: ToolStatus, code: string): ToolResult {
    ToolResult(inv.call.callId, inv.call.name, status, code, None)
  }

  function Ends(result: ToolResult): (InvocationState, seq<InvocationEffect>) {
    (InvocationState.Terminal(result), [PersistTerminal(result), PublishTerminal(result)])
  }

  function DecisionStep(inv: ToolInvocation, d: ToolDecision, mode: PermissionMode): Moved {
    if d.callId != inv.call.callId then Err(WrongCallId)
    else if !d.Valid() then Err(InvalidTransition)
    else if d.kind == DecisionKind.Approved then Ok((InvocationState.Approved(d, mode), [PersistDecision(d)]))
    else
      var (state, effects) := Ends(ResultFor(inv, Rejected, d.code));
      Ok((state, [PersistDecision(d)] + effects))
  }

  function CheckResult(inv: ToolInvocation, r: ToolResult): Option<InvocationError> {
    if !r.Valid() then Some(InvalidTerminal)
    else if r.callId != inv.call.callId then Some(WrongCallId)
    else if r.toolName != inv.call.name then Some(WrongToolName)
    else None
  }

  function PreStartEnd(inv: ToolInvocation, r: ToolResult): Moved {
    var bad := CheckResult(inv, r);
    if bad.Some? then Err(bad.value)
    else if r.status == Succeeded then Err(InvalidTerminal)
    else Ok(Ends(r))
  }

  function StartedEnd(inv: ToolInvocation, r: ToolResult): Moved {
    var bad := CheckResult(inv, r);
    if bad.Some? then Err(bad.value)
    else if !LegalAfterStart(r.toolName, r.status, r.code) then Err(InvalidTerminal)
    else Ok(Ends(r))
  }

  function CancelPreStart(inv: ToolInvocation, state: InvocationState): (InvocationState, seq<InvocationEffect>) {
    var (end, effects) := Ends(ResultFor(inv, Cancelled, "cancelled_before_start"));
    (end,
     (if state == AwaitingDecision
      then [PersistDecision(ToolDecision(inv.call.callId, Refused, "cancelled"))] else []) + effects)
  }

  /** What an input does to an invocation; a refused input changes nothing. */
  function Move(inv: ToolInvocation, state: InvocationState, input: InvocationInput): Moved {
    match state
    case Terminal(_) => if input.Recover? then Ok((state, [])) else Err(DuplicateTerminal)
    case Started(_, _) =>
      (match input
       case Complete(r) => StartedEnd(inv, r)
       case Cancel | Recover => Ok(Ends(ResultFor(inv, Indeterminate, "effect_unknown")))
       case Decide(_, _) => Err(DuplicateDecision)
       case Start => Err(DuplicateStarted)
       case _ => Err(InvalidTransition))
    case Approved(d, mode) =>
      (match input
       case PreStartFailed(r) => PreStartEnd(inv, r)
       case Start =>
         Ok((InvocationState.Started(d, mode),
             [PersistStarted(inv.call.callId), Execute(inv, mode, Sandbox(mode))]))
       case Cancel => Ok(CancelPreStart(inv, state))
       case Recover => Ok(Ends(ResultFor(inv, Cancelled, "recovered_before_start")))
       case Decide(_, _) => Err(DuplicateDecision)
       case _ => Err(InvalidTransition))
    case AwaitingDecision =>
      (match input
       case Decide(d, mode) => DecisionStep(inv, d, mode)
       case Cancel => Ok(CancelPreStart(inv, state))
       case Recover => Ok(Ends(ResultFor(inv, Cancelled, "recovered_before_start")))
       case _ => Err(InvalidTransition))
    case Requested =>
      (match input
       case PreflightAllowed(Confirm) => Ok((AwaitingDecision, [RequestApproval(inv)]))
       case PreflightAllowed(FullAccess) =>
         DecisionStep(inv, ToolDecision(inv.call.callId, DecisionKind.Approved, "policy_approved"), FullAccess)
       case PreflightDenied(r) => PreStartEnd(inv, r)
       case Cancel => Ok(CancelPreStart(inv, state))
       case Recover => Ok(Ends(ResultFor(inv, Cancelled, "recovered_before_start")))
       case _ => Err(InvalidTransition))
  }

  class InvocationMachine {
    const invocation: ToolInvocation
    var state: InvocationState

    constructor (invocation: ToolInvocation)
      ensures this.invocation == invocation && state == InvocationState.Requested
    {
      this.invocation := invocation;
      state := InvocationState.Requested;
    }

    /** Takes one input, or refuses it and stays as it is. */
    method Apply(input: InvocationInput) returns (r: Result<seq<InvocationEffect>, InvocationError>)
      modifies this
      ensures Moves(old(state), input, r)
    {
      match (state, input) {
        case (Requested, PreflightAllowed(Confirm)) =>
          state := AwaitingDecision;
          r := Ok([RequestApproval(invocation)]);
        case (Requested, PreflightAllowed(FullAccess)) =>
          r := RecordDecision(ToolDecision(invocation.call.callId, DecisionKind.Approved, "policy_approved"),
                              FullAccess);
        case (Requested, PreflightDenied(result)) => r := TerminatePreflight(result);
        case (Approved(_, _), PreStartFailed(result)) => r := TerminatePreflight(result);
        case (AwaitingDecision, Decide(decision, mode)) => r := RecordDecision(decision, mode);
        case (Approved(decision, mode), Start) =>
          state := InvocationState.Started(decision, mode);
          r := Ok([PersistStarted(invocation.call.callId), Execute(invocation, mode, Sandbox(mode))]);
        case (Started(_, _), Complete(result)) => r := TerminateStarted(result);
        case (Started(_, _), Cancel) => r := Terminate(Indeterminate, "effect_unknown");
        case (Started(_, _), Recover) => r := Terminate(Indeterminate, "effect_unknown");
        case (Terminal(_), Recover) => r := Ok([]);
        case (Terminal(_), _) => r := Err(DuplicateTerminal);
        case (_, Cancel) => r := CancelBeforeStart();
        case (_, Recover) => r := Terminate(Cancelled, "recovered_before_start");
        case (Approved(_, _), Decide(_, _)) => r := Err(DuplicateDecision);
        case (Started(_, _), Decide(_, _)) => r := Err(DuplicateDecision);
        case (Started(_, _), Start) => r := Err(DuplicateStarted);
        case (_, _) => r := Err(InvalidTransition);
      }
    }

    /** The machine has taken the input as the transition function says. */
    ghost predicate Moves(before: InvocationState, input: InvocationInput,
                          r: Result<seq<InvocationEffect>, InvocationError>)
      reads this
    {
      var moved := Move(invocation, before, input);
      if moved.Ok? then state == moved.value.0 && r == Ok(moved.value.1)
      else state == before && r == Err(moved.error)
    }

    method RecordDecision(decision: ToolDecision, mode: PermissionMode)
      returns (r: Result<seq<InvocationEffect>, InvocationError>)
      modifies this
      ensures var d := DecisionStep(invocation, decision, mode);
              if d.Ok? then state == d.value.0 && r == Ok(d.value.1) else state == old(state) && r == Err(d.error)
    {
      if decision.callId != invocation.call.callId {
        return Err(WrongCallId);
      }
      if !decision.Valid() {
        return Err(InvalidTransition);
      }
      if decision.kind == DecisionKind.Approved {
        state := InvocationState.Approved(decision, mode);
        return Ok([PersistDecision(decision)]);
      }
      var ended := Terminate(Rejected, decision.code);
      return Ok([PersistDecision(decision)] + ended.value);
    }

    method TerminatePreflight(result: ToolResult) returns (r: Result<seq<InvocationEffect>, InvocationError>)
      modifies this
      ensures var e := PreStartEnd(invocation, result);
              if e.Ok? then state == e.value.0 && r == Ok(e.value.1) else state == old(state) && r == Err(e.error)
    {
      var bad := CheckResult(invocation, result);
      if bad.Some? {
        return Err(bad.value);
      }
      if result.status == Succeeded {
        return Err(InvalidTerminal);
      }
      state := InvocationState.Terminal(result);
      return Ok([PersistTerminal(result), PublishTerminal(result)]);
    }

    method TerminateStarted(result: ToolResult) returns (r: Result<seq<InvocationEffect>, InvocationError>)
      modifies this
      ensures var e := StartedEnd(invocation, result);
              if e.Ok? then state == e.value.0 && r == Ok(e.value.1) else state == old(state) && r == Err(e.error)
    {
      var bad := CheckResult(invocation, result);
      if bad.Some? {
        return Err(bad.value);
      }
      if !LegalAfterStart(result.toolName, result.status, result.code) {
        return Err(InvalidTerminal);
      }
      state := InvocationState.Terminal(result);
      return Ok([PersistTerminal(result), PublishTerminal(result)]);
    }

    method CancelBeforeStart() returns (r: Result<seq<InvocationEffect>, InvocationError>)
      modifies this
      ensures (state, r) == (var (end, effects) := CancelPreStart(invocation, old(state)); (end, Ok(effects)))
    {
      var effects := [];
      if state == AwaitingDecision {
        effects := effects + [PersistDecision(ToolDecision(invocation.call.callId, Refused, "cancelled"))];
      }
      var ended := Terminate(Cancelled, "cancelled_before_start");
      assert effects + ended.value == CancelPreStart(invocation, old(state)).1;
      return Ok(effects + ended.value);
    }

    /** Ends the call with a result of the runtime's own. */
    method Terminate(status: ToolStatus, code: string) returns (r: Result<seq<InvocationEffect>, InvocationError>)
      modifies this
      ensures (state, r) == (var (end, effects) := Ends(ResultFor(invocation, status, code)); (end, Ok(effects)))
    {
      var result := ResultFor(invocation, status, code);
      state := InvocationState.Terminal(result);
      return Ok([PersistTerminal(result), PublishTerminal(result)]);
    }
  }

  // ---------------------------------------------------------------- the journal's side

  /** How far the journal says a tool has got. */
  datatype Progress =
    | Unrequested
    | Progress(decision: Option<ToolDecision>, started: bool, terminal: Option<ToolResult>)

  function ProgressOf(t: ToolRecord): Progress {
    Progress(t.decision, t.startedAt.Some?, t.terminal)
  }

  /** Carrying out one effect against the journal, or None when the order of events forbids it:
      a persisted record must be acceptable, execution needs a journaled start, approval an
      undecided tool, publication the journaled result. */
  function Perform(inv: ToolInvocation, p: Progress, e: InvocationEffect): Option<Progress> {
    match e
    case PersistRequested(i) =>
      if p.Unrequested? && i == inv then Some(Progress(None, false, None)) else None
    case RequestApproval(_) => if p == Progress(None, false, None) then Some(p) else None
    case PersistDecision(d) =>
      if p == Progress(None, false, None) && d.callId == inv.call.callId && d.Valid()
      then Some(Progress(Some(d), false, None)) else None
    case PersistStarted(id) =>
      if && p.Progress? && p.decision.Some? && p.decision.value.kind == DecisionKind.Approved
         && !p.started && p.terminal.None? && id == inv.call.callId
      then Some(p.(started := true)) else None
    case Execute(_, _, _) => if p.Progress? && p.started && p.terminal.None? then Some(p) else None
    case PersistTerminal(r) =>
      if && p.Progress? && p.terminal.None? && CheckResult(inv, r).None?
         && LegalTerminal(ToolRecord(inv, 0, p.decision, None, if p.started then Some(0) else None, None, None), r)
      then Some(p.(terminal := Some(r))) else None
    case PublishTerminal(r) => if p.Progress? && p.terminal == Some(r) then Some(p) else None
  }

  function PerformAll(inv: ToolInvocation, p: Progress, effects: seq<InvocationEffect>): Option<Progress>
    decreases effects
  {
    if effects == [] then Some(p) else
    var q := Perform(inv, p, effects[0]);
    if q.None? then None else PerformAll(inv, q.value, effects[1..])
  }

  /** The journal has caught up with the machine. */
  predicate InSync(state: InvocationState, p: Progress) {
    p.Progress? &&
    match state
    case Requested | AwaitingDecision => p == Progress(None, false, None)
    case Approved(d, _) => p == Progress(Some(d), false, None) && d.kind == DecisionKind.Approved
    case Started(d, _) => p == Progress(Some(d), true, None) && d.kind == DecisionKind.Approved
    case Terminal(r) => p.terminal == Some(r)
  }

  /** The machine accepts any unsuccessful result before the start; the journal does not. */
  predicate JournalTakes(state: InvocationState, input: InvocationInput) {
    && (state == InvocationState.Requested && input.PreflightDenied? ==> input.result.status != Indeterminate)
    && (state.Approved? && input.PreStartFailed? ==> input.result.status in {Failed, Cancelled})
  }

  lemma {:induction false} PerformConcat(inv: ToolInvocation, p: Progress,
                                         a: seq<InvocationEffect>, b: seq<InvocationEffect>)
    ensures PerformAll(inv, p, a + b)
            == (var q := PerformAll(inv, p, a); if q.None? then None else PerformAll(inv, q.value, b))
    decreases a
  {
    if a == [] {
      assert a + b == b;
    } else {
      assert (a + b)[1..] == a[1..] + b;
      var q := Perform(inv, p, a[0]);
      if q.Some? {
        PerformConcat(inv, q.value, a[1..], b);
      }
    }
  }

  lemma FixedCodesValid()
    ensures ValidCode("cancelled") && ValidCode("policy_approved") && ValidCode("effect_unknown")
    ensures ValidCode("cancelled_before_start") && ValidCode("recovered_before_start")
  {
  }

  lemma PerformTwo(inv: ToolInvocation, p: Progress, a: InvocationEffect, b: InvocationEffect)
    ensures PerformAll(inv, p, [a, b])
            == (var q := Perform(inv, p, a); if q.None? then None else Perform(inv, q.value, b))
  {
    assert [a, b][1..] == [b] && [b][1..] == [];
    var q := Perform(inv, p, a);
    if q.Some? {
      assert PerformAll(inv, q.value, [b]) == Perform(inv, q.value, b);
    }
  }

  lemma PerformEnds(inv: ToolInvocation, p: Progress, r: ToolResult)
    ensures var done := PerformAll(inv, p, Ends(r).1);
            done == Perform(inv, p, PersistTerminal(r))
            && (done.Some? ==> InSync(InvocationState.Terminal(r), done.value))
  {
    PerformTwo(inv, p, PersistTerminal(r), PublishTerminal(r));
  }

  /** From a caught-up journal, an accepted input's effects can be carried out in order, and leave the
      journal caught up again, exactly when the input is one the journal takes. */
  lemma MoveSimulated(inv: ToolInvocation, state: InvocationState, p: Progress, input: InvocationInput)
    requires InSync(state, p) && inv.call.Valid() && Move(inv, state, input).Ok?
    ensures var (next, effects) := Move(inv, state, input).value;
            var q := PerformAll(inv, p, effects);
            && (q.Some? <==> JournalTakes(state, input))
            && (q.Some? ==> InSync(next, q.value))
  {
    FixedCodesValid();
    var (next, effects) := Move(inv, state, input).value;
    if next.Terminal? && !state.Terminal? {
      PerformEnds(inv, p, next.result);
      if |effects| == 3 {
        var d := effects[0].decision;
        PerformEnds(inv, Progress(Some(d), false, None), next.result);
        assert effects[1..] == Ends(next.result).1;
      } else {
        assert effects == Ends(next.result).1;
      }
    } else if state.Approved? && input.Start? {
      PerformTwo(inv, p, effects[0], effects[1]);
    } else if |effects| == 1 {
      assert effects[1..] == [];
    }
  }

  /** Two answers that the machine takes and the journal does not: a denial that leaves the effect
      open, and a rejection of a call that was approved. */
  lemma RefusedByJournal(inv: ToolInvocation, d: ToolDecision, mode: PermissionMode)
    requires inv.call.Valid() && d.callId == inv.call.callId && d.Valid() && d.kind == DecisionKind.Approved
    ensures var denied := PreflightDenied(ResultFor(inv, Indeterminate, "effect_unknown"));
            var moved := Move(inv, InvocationState.Requested, denied);
            moved.Ok? && PerformAll(inv, Progress(None, false, None), moved.value.1).None?
    ensures var failed := PreStartFailed(ResultFor(inv, Rejected, "effect_unknown"));
            var moved := Move(inv, InvocationState.Approved(d, mode), failed);
            moved.Ok? && PerformAll(inv, Progress(Some(d), false, None), moved.value.1).None?
  {
    FixedCodesValid();
    var denied := PreflightDenied(ResultFor(inv, Indeterminate, "effect_unknown"));
    var failed := PreStartFailed(ResultFor(inv, Rejected, "effect_unknown"));
    MoveSimulated(inv, InvocationState.Requested, Progress(None, false, None), denied);
    MoveSimulated(inv, InvocationState.Approved(d, mode), Progress(Some(d), false, None), failed);
  }

  // ---------------------------------------------------------------- whole runs

  datatype Ran = Ran(state: InvocationState, effects: seq<InvocationEffect>)

  /** Everything a sequence of accepted inputs emits, starting with the request. */
  function RunInvocation(inv: ToolInvocation, inputs: seq<InvocationInput>): Option<Ran> {
    if inputs == [] then Some(Ran(InvocationState.Requested, [PersistRequested(inv)])) else
    var before := RunInvocation(inv, inputs[..|inputs| - 1]);
    if before.None? then None else
    var moved := Move(inv, before.value.state, inputs[|inputs| - 1]);
    if moved.Err? then None else Some(Ran(moved.value.0, before.value.effects + moved.value.1))
  }

  ghost predicate AllTaken(inv: ToolInvocation, inputs: seq<InvocationInput>) {
    inputs == [] ||
    var init := inputs[..|inputs| - 1];
    && AllTaken(inv, init)
    && (RunInvocation(inv, init).Some? ==> JournalTakes(RunInvocation(inv, init).value.state, inputs[|inputs| - 1]))
  }

  /** The journal can follow a whole run of the invocation machine, in the order the machine emitted
      its effects, exactly when it takes every pre-start result of the run. */
  lemma {:induction false} RunSimulated(inv: ToolInvocation, inputs: seq<InvocationInput>)
    requires inv.call.Valid() && RunInvocation(inv, inputs).Some?
    ensures var ran := RunInvocation(inv, inputs).value;
            var p := PerformAll(inv, Unrequested, ran.effects);
            (p.Some? <==> AllTaken(inv, inputs)) && (p.Some? ==> InSync(ran.state, p.value))
  {
    if inputs == [] {
      assert [PersistRequested(inv)][1..] == [];
    } else {
      var init := inputs[..|inputs| - 1];
      RunSimulated(inv, init);
      var before := RunInvocation(inv, init).value;
      var moved := Move(inv, before.state, inputs[|inputs| - 1]).value;
      PerformConcat(inv, Unrequested, before.effects, moved.1);
      var p := PerformAll(inv, Unrequested, before.effects);
      if p.Some? {
        MoveSimulated(inv, before.state, p.value, inputs[|inputs| - 1]);
      }
    }
  }

  predicate Quiet(effects: seq<InvocationEffect>) {
    forall i :: 0 <= i < |effects| ==> !effects[i].PersistTerminal? && !effects[i].PublishTerminal?
  }

  /** All terminal effects of a run: none yet, or one result persisted and then published, last. */
  ghost predicate EndsOnce(state: InvocationState, effects: seq<InvocationEffect>) {
    if state.Terminal? then
      exists before :: effects == before + Ends(state.result).1 && Quiet(before)
    else Quiet(effects)
  }

  lemma MoveEndsOnce(inv: ToolInvocation, state: InvocationState, input: InvocationInput)
    requires Move(inv, state, input).Ok?
    ensures var (next, effects) := Move(inv, state, input).value;
            if state.Terminal? then next == state && effects == [] else EndsOnce(next, effects)
  {
    var (next, effects) := Move(inv, state, input).value;
    if next.Terminal? && !state.Terminal? {
      var before := effects[..|effects| - 2];
      assert effects == before + Ends(next.result).1;
    }
  }

  /** Whatever the inputs, at most one result is ever persisted, and it is published right after. */
  lemma {:induction false} OneTerminal(inv: ToolInvocation, inputs: seq<InvocationInput>)
    requires RunInvocation(inv, inputs).Some?
    ensures EndsOnce(RunInvocation(inv, inputs).value.state, RunInvocation(inv, inputs).value.effects)
  {
    if inputs != [] {
      hide Move;
      var init := inputs[..|inputs| - 1];
      OneTerminal(inv, init);
      var before := RunInvocation(inv, init).value;
      MoveEndsOnce(inv, before.state, inputs[|inputs| - 1]);
      var (next, effects) := Move(inv, before.state, inputs[|inputs| - 1]).value;
      if before.state.Terminal? {
        assert before.effects + [] == before.effects;
      } else if next.Terminal? {
        var b :| effects == b + Ends(next.result).1 && Quiet(b);
        assert before.effects + effects == (before.effects + b) + Ends(next.result).1;
      }
    }
  }

  // ---------------------------------------------------------------- what a run may do, and what it says

  /** The input lets the call run in this mode. */
  predicate Approves(input: InvocationInput, mode: PermissionMode) {
    || (input == PreflightAllowed(FullAccess) && mode == FullAccess)
    || (input.Decide? && input.decision.kind == DecisionKind.Approved && input.mode == mode)
  }

  ghost predicate ApprovedIn(inputs: seq<InvocationInput>, mode: PermissionMode) {
    exists k :: 0 <= k < |inputs| && Approves(inputs[k], mode)
  }

  /** An execution is of the call itself, in a mode that an earlier input approved, and outside the
      sandbox only with full access. */
  ghost predicate AsApproved(inv: ToolInvocation, inputs: seq<InvocationInput>, e: InvocationEffect) {
    e.Execute? ==>
      && e.invocation == inv && (e.sandbox == Restricted <==> e.mode == Confirm)
      && ApprovedIn(inputs, e.mode)
  }

  ghost predicate AllAsApproved(inv: ToolInvocation, ran: Ran, inputs: seq<InvocationInput>) {
    && (forall i :: 0 <= i < |ran.effects| ==> AsApproved(inv, inputs, ran.effects[i]))
    && (forall i, k :: 0 <= i < k < |ran.effects| ==> !ran.effects[i].Execute? || !ran.effects[k].Execute?)
    && (ran.state.Approved? || ran.state.Started? ==> ApprovedIn(inputs, ran.state.mode))
    && (forall a, b :: ApprovedIn(inputs, a) && ApprovedIn(inputs, b) ==> a == b)
    && (ran.state.Requested? || ran.state.AwaitingDecision? ==> forall mode :: !ApprovedIn(inputs, mode))
    && (forall i :: 0 <= i < |ran.effects| && ran.effects[i].Execute? ==> ran.state.Started? || ran.state.Terminal?)
  }

  lemma MoreInputs(inputs: seq<InvocationInput>, input: InvocationInput)
    ensures forall mode :: ApprovedIn(inputs + [input], mode) <==> ApprovedIn(inputs, mode) || Approves(input, mode)
  {
    var longer := inputs + [input];
    forall mode ensures ApprovedIn(longer, mode) <==> ApprovedIn(inputs, mode) || Approves(input, mode) {
      if ApprovedIn(inputs, mode) {
        var k :| 0 <= k < |inputs| && Approves(inputs[k], mode);
        assert longer[k] == inputs[k];
      }
      assert longer[|inputs|] == input;
    }
  }

  /** Over any accepted inputs a call is executed at most once, as itself, in the one mode that was
      approved, and in the sandbox exactly in that mode's case. */
  lemma {:induction false} RunsAsApproved(inv: ToolInvocation, inputs: seq<InvocationInput>)
    requires RunInvocation(inv, inputs).Some?
    ensures AllAsApproved(inv, RunInvocation(inv, inputs).value, inputs)
  {
    if inputs != [] {
      var init, input := inputs[..|inputs| - 1], inputs[|inputs| - 1];
      RunsAsApproved(inv, init);
      MoreInputs(init, input);
      assert init + [input] == inputs;
      var before := RunInvocation(inv, init).value;
      var (next, effects) := Move(inv, before.state, input).value;
      MoveExecutes(inv, before.state, input);
      MoveApproves(inv, before.state, input);
      hide Move, ApprovedIn;
      forall i | 0 <= i < |before.effects| ensures AsApproved(inv, inputs, (before.effects + effects)[i]) {
        assert AsApproved(inv, init, before.effects[i]);
      }
    }
  }

  /** Only starting an approved call executes it. */
  lemma MoveExecutes(inv: ToolInvocation, state: InvocationState, input: InvocationInput)
    requires Move(inv, state, input).Ok?
    ensures var (next, effects) := Move(inv, state, input).value;
            && (forall i :: 0 <= i < |effects| && effects[i].Execute? ==>
                  && i == |effects| - 1 && state.Approved?
                  && next == InvocationState.Started(state.decision, state.mode)
                  && effects[i].invocation == inv && effects[i].mode == state.mode
                  && (effects[i].sandbox == Restricted <==> state.mode == Confirm))
  {
  }

  /** Approval is asked for once, and the mode then stays. */
  lemma MoveApproves(inv: ToolInvocation, state: InvocationState, input: InvocationInput)
    requires Move(inv, state, input).Ok?
    ensures var next := Move(inv, state, input).value.0;
            && (forall mode :: Approves(input, mode) ==>
                  (state.Requested? || state.AwaitingDecision?) && next.Approved? && next.mode == mode)
            && (next.Approved? || next.Started? ==>
                  Approves(input, next.mode) || ((state.Approved? || state.Started?) && next.mode == state.mode))
            && (next.Requested? || next.AwaitingDecision? ==> state.Requested? || state.AwaitingDecision?)
            && (state.Started? ==> next.Started? || next.Terminal?) && (state.Terminal? ==> next == state)
  {
  }

  /** The result is well formed and names this call and its tool. */
  ghost predicate IsResultOf(inv: ToolInvocation, r: ToolResult) {
    r.Valid() && r.callId == inv.call.callId && r.toolName == inv.call.name
  }

  /** When an input comes at its time, and brings what a call may take there. */
  ghost predicate Timely(state: InvocationState, input: InvocationInput) {
    match input
    case PreflightAllowed(_) | PreflightDenied(_) => state.Requested?
    case Decide(_, _) => state.AwaitingDecision?
    case PreStartFailed(_) | Start => state.Approved?
    case Complete(_) => state.Started?
    case Cancel => !state.Terminal?
    case Recover => true
  }

  ghost predicate Fitting(inv: ToolInvocation, input: InvocationInput) {
    match input
    case PreflightDenied(r) => IsResultOf(inv, r) && r.status != Succeeded
    case PreStartFailed(r) => IsResultOf(inv, r) && r.status != Succeeded
    case Complete(r) => IsResultOf(inv, r) && LegalAfterStart(r.toolName, r.status, r.code)
    case Decide(d, _) => d.callId == inv.call.callId && d.Valid()
    case PreflightAllowed(_) | Start | Cancel | Recover => true
  }

  /** What a refused input is told: first that it is late or early, then what is wrong with it. */
  ghost predicate RefusedFor(inv: ToolInvocation, state: InvocationState, input: InvocationInput, e: InvocationError) {
    if !Timely(state, input) then
      && (e == DuplicateTerminal <==> state.Terminal?)
      && (e == DuplicateDecision <==> input.Decide? && (state.Approved? || state.Started?))
      && (e == DuplicateStarted <==> input.Start? && state.Started?)
      && e in {DuplicateTerminal, DuplicateDecision, DuplicateStarted, InvalidTransition}
    else if input.Decide? then
      e == if input.decision.callId != inv.call.callId then WrongCallId else InvalidTransition
    else
      && (input.PreflightDenied? || input.PreStartFailed? || input.Complete?)
      && (e == WrongCallId <==> input.result.Valid() && input.result.callId != inv.call.callId)
      && (e == WrongToolName <==>
            input.result.Valid() && input.result.callId == inv.call.callId && input.result.toolName != inv.call.name)
      && e in {WrongCallId, WrongToolName, InvalidTerminal}
  }

  /** An input is taken exactly when it is timely and fitting, and otherwise told why. */
  lemma TakenExactly(inv: ToolInvocation, state: InvocationState, input: InvocationInput)
    requires inv.call.Valid()
    ensures Move(inv, state, input).Ok? <==> Timely(state, input) && Fitting(inv, input)
    ensures Move(inv, state, input).Err? ==> RefusedFor(inv, state, input, Move(inv, state, input).error)
  {
    hide ValidCode, LegalAfterStart;
    if state.Requested? && input == PreflightAllowed(FullAccess) {
      FixedCodesValid();
    }
  }

  /** Why a call ended as it did, told by the input that ended it. */
  ghost predicate Explains(inv: ToolInvocation, before: InvocationState, input: InvocationInput, r: ToolResult) {
    var id, name := inv.call.callId, inv.call.name;
    match input
    case PreflightDenied(result) => r == result && before.Requested?
    case PreStartFailed(result) => r == result && before.Approved?
    case Complete(result) => r == result && before.Started?
    case Decide(d, _) =>
      d.kind == Refused && r == ToolResult(id, name, Rejected, d.code, None) && before.AwaitingDecision?
    case Cancel =>
      r == if before.Started? then ToolResult(id, name, Indeterminate, "effect_unknown", None)
           else ToolResult(id, name, Cancelled, "cancelled_before_start", None)
    case Recover =>
      r == if before.Started? then ToolResult(id, name, Indeterminate, "effect_unknown", None)
           else ToolResult(id, name, Cancelled, "recovered_before_start", None)
    case _ => false
  }

  lemma EndIsExplained(inv: ToolInvocation, state: InvocationState, input: InvocationInput)
    requires Move(inv, state, input).Ok? && !state.Terminal? && Move(inv, state, input).value.0.Terminal?
    ensures Explains(inv, state, input, Move(inv, state, input).value.0.result)
  {
  }

  /** Every result of a run is explained by the one input that ended it; a call whose effect may have
      happened never ends as rejected or cancelled by the runtime itself. */
  lemma {:induction false} ResultIsExplained(inv: ToolInvocation, inputs: seq<InvocationInput>) returns (k: nat)
    requires RunInvocation(inv, inputs).Some? && RunInvocation(inv, inputs).value.state.Terminal?
    ensures k < |inputs| && RunInvocation(inv, inputs[..k]).Some?
    ensures var before := RunInvocation(inv, inputs[..k]).value.state;
            !before.Terminal? && Explains(inv, before, inputs[k], RunInvocation(inv, inputs).value.state.result)
  {
    hide Move, Explains;
    var init, input := inputs[..|inputs| - 1], inputs[|inputs| - 1];
    var before := RunInvocation(inv, init).value.state;
    if before.Terminal? {
      k := ResultIsExplained(inv, init);
      assert init[..k] == inputs[..k];
      MoveApproves(inv, before, input);
    } else {
      k := |init|;
      EndIsExplained(inv, before, input);
    }
  }
}
