/** One model turn: provider events in, observable events and one receipt out. */
module Runtime {
  import opened Protocol
  import opened Requests

  datatype ProtocolErrorCode =
    | MalformedJson | MissingToolCallId | PrematureEof | DuplicateTerminal | EventAfterTerminal
    | UnknownEvent | DuplicateToolCallId | InvalidToolArguments | ToolArgumentsTooLarge

  function RuntimeCode(code: ProtocolErrorCode): RuntimeErrorCode {
    match code
    case PrematureEof => ProtocolPrematureEof
    case DuplicateTerminal => ProtocolDuplicateTerminal
    case EventAfterTerminal => ProtocolEventAfterTerminal
    case UnknownEvent => ProtocolUnknownEvent
    case MalformedJson | MissingToolCallId | DuplicateToolCallId | InvalidToolArguments
       | ToolArgumentsTooLarge => ProtocolMalformedJson
  }

  datatype Fragment = Fragment(callId: CallId, name: Option<string>, arguments: Option<Arguments>, complete: bool)

  datatype StreamOutcome = StreamCompleted | StreamFailed(code: ProtocolErrorCode) | StreamInterrupted | StreamStopped

  datatype StreamEvent =
    | ReasoningSeen
    | TextDelta(delta: string)
    | CallFragments(fragments: seq<Fragment>)
    | UsageReport(usage: Usage)
    | StreamEnd(outcome: StreamOutcome)

  datatype RunState =
    | Idle
    | Running(request: TurnRequest, usage: Option<Usage>, pending: seq<ToolInvocation>)
    | AwaitingTools(request: TurnRequest, usage: Option<Usage>, invocations: seq<ToolInvocation>)
    | Terminal(receipt: TurnReceipt)

  datatype RunInput =
    | Begin(request: TurnRequest)
    | ProviderEvent(event: StreamEvent)
    | ProviderFailed(failure: Failure)
    | ProviderEof
    | ContinueAfterTools(request: TurnRequest)
    | Cancel
    | Shutdown

  datatype RuntimeEvent =
    | TurnBegan(sessionId: SessionId, turnId: TurnId, requestId: RequestId)
    | VisibleText(delta: string)
    | ReasoningFiltered
    | CallObserved(callId: CallId, name: Option<string>)
    | UsageSeen(usage: Usage)
    | TurnEnded(outcome: Outcome)

  datatype RunEffect =
    | Persist(event: RuntimeEvent)
    | Publish(event: RuntimeEvent)
    | OpenProvider(request: TurnRequest)
    | AbortProvider
    | BeginTools(invocations: seq<ToolInvocation>)
    | Finalize(receipt: TurnReceipt)

  type RunReply = Result<seq<RunEffect>, RuntimeErrorCode>

  // ---------------------------------------------------------------- usage

  function AddOptional(a: Option<U64>, b: Option<U64>): Option<U64> {
    match (a, b)
    case (Some(x), Some(y)) => Some(if x + y > MAX_U64 then MAX_U64 else x + y)
    case (Some(x), None) => Some(x)
    case (None, y) => y
  }

  function MergeUsage(current: Option<Usage>, next: Usage): Usage {
    var c := if current.Some? then current.value else Usage(None, None, None);
    Usage(AddOptional(c.input, next.input), AddOptional(c.output, next.output), AddOptional(c.total, next.total))
  }

  // ---------------------------------------------------------------- tools of a request

  function EffectForTool(name: string): Option<ToolEffect> {
    if name == "read_file" || name == "list_directory" then Some(Read)
    else if name == "apply_patch" || name == "write_file" then Some(Write)
    else if || name == "run_diagnostic" || name == "git_status" || name == "git_diff"
            || name == "npm_diagnostic" || name == "shell_command" || name == "shell_session"
    then Some(Process)
    else None
  }

  function FindTool(tools: seq<ToolDefinition>, name: string): (d: Option<ToolDefinition>)
    ensures d.Some? ==> d.value in tools && d.value.name == name
    ensures d.None? ==> forall t :: t in tools ==> t.name != name
  {
    if tools == [] then None
    else if tools[0].name == name then Some(tools[0])
    else FindTool(tools[1..], name)
  }

  function Observable(event: RuntimeEvent): seq<RunEffect> {
    [Persist(event), Publish(event)]
  }

  /** One complete call fragment as an invocation, or the error. */
  function InvocationFrom(tools: seq<ToolDefinition>, pending: seq<ToolInvocation>, f: Fragment)
    : Result<ToolInvocation, RuntimeErrorCode>
  {
    if !f.complete || f.name.None? || f.arguments.None? then Err(ProtocolMalformedJson) else
    var call := ToolCall(f.callId, f.name.value, f.arguments.value);
    if !call.Valid() then Err(ProtocolMalformedJson)
    else if FindTool(tools, call.name).None? then Err(ToolUnavailable)
    else if !FindTool(tools, call.name).value.Accepts(call) then Err(ProtocolMalformedJson)
    else if exists i :: 0 <= i < |pending| && pending[i].call.callId == call.callId then Err(ProtocolMalformedJson)
    else if EffectForTool(call.name).None? then Err(ToolUnavailable)
    else Ok(ToolInvocation(call, EffectForTool(call.name).value))
  }

  /** Fragments are taken one by one; those before a bad one stay pending. */
  function Collect(tools: seq<ToolDefinition>, pending: seq<ToolInvocation>, fragments: seq<Fragment>)
    : (seq<ToolInvocation>, RunReply)
    decreases fragments
  {
    if fragments == [] then (pending, Ok([])) else
    var inv := InvocationFrom(tools, pending, fragments[0]);
    if inv.Err? then (pending, Err(inv.error)) else
    var (rest, reply) := Collect(tools, pending + [inv.value], fragments[1..]);
    (rest,
     if reply.Err? then reply
     else Ok(Observable(CallObserved(inv.value.call.callId, Some(inv.value.call.name))) + reply.value))
  }

  function ObserveAll(fragments: seq<Fragment>): seq<RunEffect> {
    if fragments == [] then []
    else Observable(CallObserved(fragments[0].callId, fragments[0].name)) + ObserveAll(fragments[1..])
  }

  // ---------------------------------------------------------------- the step

  predicate Live(s: RunState) { s.Running? || s.AwaitingTools? }

  function ReceiptOf(s: RunState, outcome: Outcome): TurnReceipt
    requires Live(s)
  {
    TurnReceipt(s.request.sessionId, s.request.turnId, s.request.requestId, outcome, s.usage)
  }

  /** Ending a live run: one persisted and published end, then the receipt. */
  function End(s: RunState, outcome: Outcome, abort: bool): (RunState, RunReply)
    requires Live(s)
  {
    var receipt := ReceiptOf(s, outcome);
    (Terminal(receipt),
     Ok((if abort then [AbortProvider] else []) + Observable(TurnEnded(outcome)) + [Finalize(receipt)]))
  }

  function OutcomeOf(o: StreamOutcome): Outcome {
    match o
    case StreamCompleted => Completed
    case StreamFailed(code) => FailedWith(Failure.Failure(RuntimeCode(code), None))
    case StreamInterrupted => WasInterrupted
    case StreamStopped => Stopped
  }

  function OnEvent(s: RunState, event: StreamEvent): (RunState, RunReply)
    requires s.Running?
  {
    match event
    case ReasoningSeen => (s, Ok(Observable(ReasoningFiltered)))
    case TextDelta(delta) => (s, Ok(Observable(VisibleText(delta))))
    case UsageReport(usage) =>
      (RunState.Running(s.request, Some(MergeUsage(s.usage, usage)), s.pending), Ok(Observable(UsageSeen(usage))))
    case CallFragments(fragments) =>
      if s.request.tools == [] then
        var (ended, reply) := End(s, FailedWith(Failure.Failure(ToolUnavailable, None)), true);
        (ended, Ok(ObserveAll(fragments) + reply.value))
      else
        var (pending, reply) := Collect(s.request.tools, s.pending, fragments);
        (s.(pending := pending), reply)
    case StreamEnd(outcome) =>
      if outcome == StreamCompleted && s.pending != [] then
        (AwaitingTools(s.request, s.usage, s.pending), Ok([BeginTools(s.pending)]))
      else End(s, OutcomeOf(outcome), false)
  }

  predicate SameTurn(a: TurnRequest, b: TurnRequest) {
    && a.sessionId == b.sessionId && a.turnId == b.turnId && a.requestId == b.requestId && a.binding == b.binding
  }

  predicate HasResultFor(messages: seq<ConversationItem>, id: CallId) {
    exists i :: 0 <= i < |messages| && messages[i].ToolOutput? && messages[i].result.callId == id
  }

  /** What an input does to a run. Refusing fragments is the one refusal that can change the state. */
  ghost function RunStep(s: RunState, input: RunInput): (RunState, RunReply) {
    match s
    case Idle =>
      (match input
       case Begin(request) =>
         if !ValidRequest(request) then (s, Err(Configuration))
         else
           var began := TurnBegan(request.sessionId, request.turnId, request.requestId);
           (RunState.Running(request, None, []), Ok(Observable(began) + [OpenProvider(request)]))
       case Shutdown => (s, Ok([]))
       case _ => (s, Err(ProtocolEventAfterTerminal)))
    case Running(request, _, _) =>
      (match input
       case Begin(_) | ContinueAfterTools(_) => (s, Err(WorkspaceBusy))
       case ProviderEvent(event) => OnEvent(s, event)
       case ProviderFailed(failure) => End(s, FailedWith(failure), true)
       case ProviderEof => End(s, FailedWith(Failure.Failure(ProtocolPrematureEof, None)), true)
       case Cancel | Shutdown => End(s, WasInterrupted, true))
    case AwaitingTools(previous, usage, invocations) =>
      (match input
       case ContinueAfterTools(request) =>
         if !ValidRequest(request) then (s, Err(Configuration))
         else if || !SameTurn(request, previous)
                 || exists i :: 0 <= i < |invocations| && !HasResultFor(request.messages, invocations[i].call.callId)
         then (s, Err(Recovery))
         else (RunState.Running(request, usage, []), Ok([OpenProvider(request)]))
       case Cancel | Shutdown => End(s, WasInterrupted, false)
       case Begin(_) => (s, Err(WorkspaceBusy))
       case _ => (s, Err(ProtocolEventAfterTerminal)))
    case Terminal(_) =>
      (match input
       case Shutdown | Cancel => (s, Ok([]))
       case ProviderEvent(StreamEnd(_)) => (s, Err(ProtocolDuplicateTerminal))
       case _ => (s, Err(ProtocolEventAfterTerminal)))
  }

  /** Collecting the rest after some effects are already out. */
  function Collected(tools: seq<ToolDefinition>, pending: seq<ToolInvocation>, fragments: seq<Fragment>,
                     effects: seq<RunEffect>): (seq<ToolInvocation>, RunReply)
  {
    var (rest, reply) := Collect(tools, pending, fragments);
    (rest, if reply.Err? then reply else Ok(effects + reply.value))
  }

  lemma CollectFrom(tools: seq<ToolDefinition>, pending: seq<ToolInvocation>, fragments: seq<Fragment>,
                    none: seq<RunEffect>)
    requires none == []
    ensures Collected(tools, pending, fragments, none) == Collect(tools, pending, fragments)
  {
    var reply := Collect(tools, pending, fragments).1;
    assert reply.Ok? ==> none + reply.value == reply.value;
  }

  lemma CollectNext(tools: seq<ToolDefinition>, pending: seq<ToolInvocation>, fragments: seq<Fragment>, i: nat,
                    effects: seq<RunEffect>)
    requires i < |fragments|
    ensures var inv := InvocationFrom(tools, pending, fragments[i]);
            && (inv.Ok? ==> fragments[i].name.Some?)
            && Collected(tools, pending, fragments[i..], effects)
               == if inv.Err? then (pending, Err(inv.error))
                  else Collected(tools, pending + [inv.value], fragments[i + 1..],
                                 effects + Observable(CallObserved(fragments[i].callId, fragments[i].name)))
  {
    var f := fragments[i];
    assert fragments[i..][0] == f && fragments[i..][1..] == fragments[i + 1..];
    var inv := InvocationFrom(tools, pending, f);
    if inv.Ok? {
      var seen := Observable(CallObserved(f.callId, f.name));
      hide Observable;
      var tail := Collect(tools, pending + [inv.value], fragments[i + 1..]).1;
      assert tail.Ok? ==> effects + (seen + tail.value) == (effects + seen) + tail.value;
    }
  }

  lemma CollectDone(tools: seq<ToolDefinition>, pending: seq<ToolInvocation>, effects: seq<RunEffect>)
    ensures Collected(tools, pending, [], effects) == (pending, Ok(effects))
  {
    assert effects + [] == effects;
  }

  // ---------------------------------------------------------------- the machine

  class RunMachine {
    var state: RunState

    constructor ()
      ensures state == Idle
    {
      state := Idle;
    }

    /** Takes complete fragments into the pending list, one by one. */
    method TakeFragments(fragments: seq<Fragment>) returns (r: RunReply)
      requires state.Running?
      modifies this
      ensures var (pending, reply) := Collect(old(state).request.tools, old(state).pending, fragments);
              state == old(state).(pending := pending) && r == reply
    {
      hide Collect, InvocationFrom, Observable;
      var effects: seq<RunEffect> := [];
      assert fragments[0..] == fragments;
      CollectFrom(state.request.tools, state.pending, fragments, []);
      for i := 0 to |fragments|
        invariant state.Running? && state == old(state).(pending := state.pending)
        invariant Collected(old(state).request.tools, old(state).pending, fragments, [])
                  == Collected(state.request.tools, state.pending, fragments[i..], effects)
      {
        var f := fragments[i];
        CollectNext(state.request.tools, state.pending, fragments, i, effects);
        var inv := InvocationFrom(state.request.tools, state.pending, f);
        if inv.Err? {
          return Err(inv.error);
        }
        effects := effects + Observable(CallObserved(f.callId, f.name));
        state := state.(pending := state.pending + [inv.value]);
      }
      assert fragments[|fragments|..] == [];
      CollectDone(state.request.tools, state.pending, effects);
      return Ok(effects);
    }

    method Finish(outcome: Outcome, abort: bool) returns (r: RunReply)
      requires Live(state)
      modifies this
      ensures (state, r) == End(old(state), outcome, abort)
    {
      var receipt := ReceiptOf(state, outcome);
      state := Terminal(receipt);
      var effects := if abort then [AbortProvider] else [];
      return Ok(effects + Observable(TurnEnded(outcome)) + [Finalize(receipt)]);
    }

    method TakeEvent(event: StreamEvent) returns (r: RunReply)
      requires state.Running?
      modifies this
      ensures (state, r) == OnEvent(old(state), event)
    {
      match event {
        case ReasoningSeen => r := Ok(Observable(ReasoningFiltered));
        case TextDelta(delta) => r := Ok(Observable(VisibleText(delta)));
        case UsageReport(usage) =>
          state := RunState.Running(state.request, Some(MergeUsage(state.usage, usage)), state.pending);
          r := Ok(Observable(UsageSeen(usage)));
        case CallFragments(fragments) =>
          if state.request.tools == [] {
            var ended := Finish(FailedWith(Failure.Failure(ToolUnavailable, None)), true);
            r := Ok(ObserveAll(fragments) + ended.value);
          } else {
            r := TakeFragments(fragments);
          }
        case StreamEnd(outcome) =>
          if outcome == StreamCompleted && state.pending != [] {
            r := Ok([BeginTools(state.pending)]);
            state := AwaitingTools(state.request, state.usage, state.pending);
          } else {
            r := Finish(OutcomeOf(outcome), false);
          }
      }
    }

    method Start(request: TurnRequest) returns (r: RunReply)
      requires state.Idle?
      modifies this
      ensures (state, r) == RunStep(old(state), Begin(request))
    {
      var valid := ValidateRequest(request);
      if !valid {
        return Err(Configuration);
      }
      state := RunState.Running(request, None, []);
      return Ok(Observable(TurnBegan(request.sessionId, request.turnId, request.requestId)) + [OpenProvider(request)]);
    }

    method Resume(request: TurnRequest) returns (r: RunReply)
      requires state.AwaitingTools?
      modifies this
      ensures (state, r) == RunStep(old(state), ContinueAfterTools(request))
    {
      var valid := ValidateRequest(request);
      if !valid {
        return Err(Configuration);
      }
      if || !SameTurn(request, state.request)
         || exists i :: 0 <= i < |state.invocations|
                        && !HasResultFor(request.messages, state.invocations[i].call.callId)
      {
        return Err(Recovery);
      }
      state := RunState.Running(request, state.usage, []);
      return Ok([OpenProvider(request)]);
    }

    method Apply(input: RunInput) returns (r: RunReply)
      modifies this
      ensures (state, r) == RunStep(old(state), input)
    {
      hide ValidRequest, OnEvent;
      match state {
        case Idle =>
          match input {
            case Begin(request) => r := Start(request);
            case Shutdown => r := Ok([]);
            case _ => r := Err(ProtocolEventAfterTerminal);
          }
        case Running(_, _, _) =>
          match input {
            case Begin(_) | ContinueAfterTools(_) => r := Err(WorkspaceBusy);
            case ProviderEvent(event) => r := TakeEvent(event);
            case ProviderFailed(failure) => r := Finish(FailedWith(failure), true);
            case ProviderEof => r := Finish(FailedWith(Failure.Failure(ProtocolPrematureEof, None)), true);
            case Cancel | Shutdown => r := Finish(WasInterrupted, true);
          }
        case AwaitingTools(_, _, _) =>
          match input {
            case ContinueAfterTools(request) => r := Resume(request);
            case Cancel | Shutdown => r := Finish(WasInterrupted, false);
            case Begin(_) => r := Err(WorkspaceBusy);
            case _ => r := Err(ProtocolEventAfterTerminal);
          }
        case Terminal(_) =>
          match input {
            case Shutdown | Cancel => r := Ok([]);
            case ProviderEvent(StreamEnd(_)) => r := Err(ProtocolDuplicateTerminal);
            case _ => r := Err(ProtocolEventAfterTerminal);
          }
      }
    }
  }
}
