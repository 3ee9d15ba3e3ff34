/** What a run says of itself: how it ended, what it was told to show, and which calls it took. */
module RunOutcomes {
  import opened Protocol
  import opened Requests
  import opened Runtime
  import opened RunLaws

  // ---------------------------------------------------------------- how a run ended

  /** How a run ended, told by the input that ended it. */
  ghost predicate SaysHow(input: RunInput, outcome: Outcome) {
    && (outcome == Completed <==> input == ProviderEvent(StreamEnd(StreamCompleted)))
    && (outcome == Stopped <==> input == ProviderEvent(StreamEnd(StreamStopped)))
    && (outcome == WasInterrupted <==>
        input == ProviderEvent(StreamEnd(StreamInterrupted)) || input == Cancel || input == Shutdown)
    && (outcome.FailedWith? ==>
          match input
          case ProviderFailed(failure) => outcome.failure == failure
          case ProviderEof => outcome.failure == Failure.Failure(ProtocolPrematureEof, None)
          case ProviderEvent(CallFragments(_)) => outcome.failure == Failure.Failure(ToolUnavailable, None)
          case ProviderEvent(StreamEnd(StreamFailed(code))) =>
            outcome.failure.httpStatus.None? && CodeSays(code, outcome.failure.code)
          case _ => false)
  }

  /** How a broken stream is reported. */
  ghost predicate CodeSays(broken: ProtocolErrorCode, code: RuntimeErrorCode) {
    && (broken == PrematureEof <==> code == ProtocolPrematureEof)
    && (broken == DuplicateTerminal <==> code == ProtocolDuplicateTerminal)
    && (broken == EventAfterTerminal <==> code == ProtocolEventAfterTerminal)
    && (broken == UnknownEvent <==> code == ProtocolUnknownEvent)
    && (broken in {MalformedJson, MissingToolCallId, DuplicateToolCallId, InvalidToolArguments, ToolArgumentsTooLarge}
        <==> code == ProtocolMalformedJson)
  }

  /** The stream of a running turn is still open unless its end is what is fed. */
  predicate LeavesStreamOpen(s: RunState, input: RunInput) {
    s.Running? && !(input.ProviderEvent? && input.event.StreamEnd?)
  }

  /** The input that ends a run decides its outcome, and an open stream is aborted, once, first of all
      but for the calls observed. */
  lemma EndSaysHow(s: RunState, input: RunInput)
    requires !s.Terminal? && RunStep(s, input).0.Terminal?
    ensures var (next, reply) := RunStep(s, input);
            && reply.Ok? && SaysHow(input, next.receipt.outcome)
            && (AbortProvider in reply.value <==> LeavesStreamOpen(s, input))
  {
    hide ValidRequest, Collect, Requests.Paired;
    if s.Running? && input.ProviderEvent? && input.event.CallFragments? {
      var lead := ObserveAll(input.event.fragments);
      var ended := End(s, FailedWith(Failure.Failure(ToolUnavailable, None)), true).1.value;
      assert RunStep(s, input).1.value == lead + ended;
      assert (lead + ended)[|lead|] == AbortProvider;
    } else {
      var reply := RunStep(s, input).1.value;
      if LeavesStreamOpen(s, input) {
        assert reply[0] == AbortProvider;
      }
    }
  }

  /** Every finished run was ended by one of its inputs, and its receipt says how. */
  lemma {:induction false} EndIsSaid(inputs: seq<RunInput>) returns (k: nat)
    requires RunAll(inputs).state.Terminal?
    ensures k < |inputs| && !RunAll(inputs[..k]).state.Terminal? && RunAll(inputs[..k + 1]) == RunAll(inputs)
    ensures SaysHow(inputs[k], RunAll(inputs).state.receipt.outcome)
  {
    hide RunStep, SaysHow;
    var n := |inputs| - 1;
    var before := RunAll(inputs[..n]);
    if before.state.Terminal? {
      k := EndIsSaid(inputs[..n]);
      assert inputs[..n][..k] == inputs[..k] && inputs[..n][..k + 1] == inputs[..k + 1];
      assert inputs[..n] + [inputs[n]] == inputs;
      EndIsFinal(inputs[..n], [inputs[n]]);
    } else {
      k := n;
      assert inputs[..n + 1] == inputs;
      EndSaysHow(before.state, inputs[n]);
    }
  }

  // ---------------------------------------------------------------- what was reported

  /** The usage that the provider reported while the run took its events. */
  ghost function TakenUsage(inputs: seq<RunInput>): seq<Usage> {
    if inputs == [] then [] else
    var init, input := inputs[..|inputs| - 1], inputs[|inputs| - 1];
    TakenUsage(init)
    + if RunAll(init).state.Running? && input.ProviderEvent? && input.event.UsageReport? then [input.event.usage]
      else []
  }

  /** The text that the provider sent while the run took its events. */
  ghost function TakenText(inputs: seq<RunInput>): string {
    if inputs == [] then "" else
    var init, input := inputs[..|inputs| - 1], inputs[|inputs| - 1];
    TakenText(init)
    + if RunAll(init).state.Running? && input.ProviderEvent? && input.event.TextDelta? then input.event.delta else ""
  }

  ghost predicate NoText(effects: seq<RunEffect>) {
    forall i :: 0 <= i < |effects| && effects[i].Persist? ==> !effects[i].event.VisibleText?
  }

  lemma NoTextConcat(a: seq<RunEffect>, b: seq<RunEffect>)
    requires NoText(a) && NoText(b)
    ensures NoText(a + b)
  {
  }

  lemma {:induction false} CollectShowsNoText(tools: seq<ToolDefinition>, pending: seq<ToolInvocation>,
                                              fragments: seq<Fragment>)
    ensures var reply := Collect(tools, pending, fragments).1; reply.Ok? ==> NoText(reply.value)
    decreases fragments
  {
    if fragments != [] {
      var inv := InvocationFrom(tools, pending, fragments[0]);
      if inv.Ok? {
        var longer := pending + [inv.value];
        CollectShowsNoText(tools, longer, fragments[1..]);
        var rest := Collect(tools, longer, fragments[1..]).1;
        var seen := Observable(CallObserved(inv.value.call.callId, Some(inv.value.call.name)));
        assert NoText(seen);
        hide NoText;
        if rest.Ok? {
          NoTextConcat(seen, rest.value);
        }
      }
    }
  }

  lemma {:induction false} ObserveShowsNoText(fragments: seq<Fragment>)
    ensures NoText(ObserveAll(fragments))
  {
    if fragments != [] {
      ObserveShowsNoText(fragments[1..]);
      var seen := Observable(CallObserved(fragments[0].callId, fragments[0].name));
      assert NoText(seen);
      hide NoText;
      NoTextConcat(seen, ObserveAll(fragments[1..]));
    }
  }

  lemma EndShowsNoText(s: RunState, outcome: Outcome, abort: bool)
    requires Live(s)
    ensures NoText(End(s, outcome, abort).1.value)
  {
  }

  lemma FragmentsShowNoText(s: RunState, fragments: seq<Fragment>)
    requires s.Running? && OnEvent(s, CallFragments(fragments)).1.Ok?
    ensures NoText(OnEvent(s, CallFragments(fragments)).1.value)
  {
    hide Collect, ObserveAll;
    if s.request.tools == [] {
      ObserveShowsNoText(fragments);
      var failed := FailedWith(Failure.Failure(ToolUnavailable, None));
      EndShowsNoText(s, failed, true);
      hide End, NoText;
      NoTextConcat(ObserveAll(fragments), End(s, failed, true).1.value);
    } else {
      CollectShowsNoText(s.request.tools, s.pending, fragments);
    }
  }

  /** Text is persisted first and alone, and only for a piece of text. */
  lemma WritesOnce(s: RunState, input: RunInput)
    requires !s.Terminal? && RunStep(s, input).1.Ok?
    ensures var (next, reply) := RunStep(s, input);
            if s.Running? && input.ProviderEvent? && input.event.TextDelta?
            then !next.Terminal? && reply.value == Observable(VisibleText(input.event.delta))
            else NoText(reply.value)
  {
    hide ValidRequest;
    if s.Running? && input.ProviderEvent? && input.event.CallFragments? {
      FragmentsShowNoText(s, input.event.fragments);
      hide OnEvent;
    }
  }

  lemma {:induction false} NoTextShown(effects: seq<RunEffect>)
    requires NoText(effects)
    ensures ShownText(PersistedEvents(effects)) == ""
  {
    if effects != [] {
      var n := |effects| - 1;
      NoTextShown(effects[..n]);
      var kept := PersistedEvents(effects[..n]);
      if effects[n].Persist? {
        assert (kept + [effects[n].event])[..|kept|] == kept;
      } else {
        assert kept + [] == kept;
      }
    }
  }

  lemma EndReportsNothing(s: RunState, outcome: Outcome, abort: bool)
    requires Live(s)
    ensures ReportedUsage(PublishedEvents(End(s, outcome, abort).1.value)) == []
  {
    hide ReportedUsage, PublishedEvents;
    NothingObserved();
    EndCloses(s, outcome, abort, []);
    assert [] + End(s, outcome, abort).1.value == End(s, outcome, abort).1.value;
  }

  lemma FragmentsReportNothing(s: RunState, fragments: seq<Fragment>)
    requires s.Running? && OnEvent(s, CallFragments(fragments)).1.Ok?
    ensures ReportedUsage(PublishedEvents(OnEvent(s, CallFragments(fragments)).1.value)) == []
  {
    hide ReportedUsage, PublishedEvents, Collect, ObserveAll;
    if s.request.tools == [] {
      ObserveAllOnlyObserves(fragments);
      EndCloses(s, FailedWith(Failure.Failure(ToolUnavailable, None)), true, ObserveAll(fragments));
    } else {
      CollectOnlyObserves(s.request.tools, s.pending, fragments);
    }
  }

  /** One input shows exactly the text that it brings. */
  lemma StepShowsText(s: RunState, input: RunInput)
    requires RunStep(s, input).1.Ok?
    ensures ShownText(PublishedEvents(RunStep(s, input).1.value))
            == if s.Running? && input.ProviderEvent? && input.event.TextDelta? then input.event.delta else ""
  {
    FairRunStep(s, input);
    var effects := RunStep(s, input).1.value;
    hide Closes, TotalUsage, ReportedUsage;
    if s.Terminal? {
      assert effects == [];
    } else {
      WritesOnce(s, input);
      if s.Running? && input.ProviderEvent? && input.event.TextDelta? {
        ObservableEvents(VisibleText(input.event.delta));
        assert [VisibleText(input.event.delta)][..0] == [];
        assert "" + input.event.delta == input.event.delta;
      } else {
        hide RunStep, NoText, ShownText, PersistedEvents, PublishedEvents;
        NoTextShown(effects);
      }
    }
  }

  /** One input reports exactly the usage that it brings. */
  lemma StepReports(s: RunState, input: RunInput)
    requires RunStep(s, input).1.Ok?
    ensures ReportedUsage(PublishedEvents(RunStep(s, input).1.value))
            == if s.Running? && input.ProviderEvent? && input.event.UsageReport? then [input.event.usage] else []
  {
    hide ReportedUsage, PublishedEvents, PersistedEvents, ValidRequest, OnEvent, Closes, OnlyObserves;
    var (next, reply) := RunStep(s, input);
    NothingShown();
    if s.Running? && input.ProviderEvent? {
      EventReports(s, input.event);
    } else if Live(s) && next.Terminal? {
      EndReportsNothing(s, next.receipt.outcome, s.Running?);
      EndsWithIt(s, input);
    } else if s.Idle? && next.Running? {
      BeginReportsNothing(next.request);
    } else if s.AwaitingTools? && next.Running? {
      OpenIsSilent(next.request);
    }
  }

  lemma EndsWithIt(s: RunState, input: RunInput)
    requires Live(s) && RunStep(s, input).0.Terminal? && !(s.Running? && input.ProviderEvent?)
    ensures RunStep(s, input).1 == End(s, RunStep(s, input).0.receipt.outcome, s.Running?).1
  {
  }

  lemma BeginReportsNothing(request: TurnRequest)
    ensures var e := TurnBegan(request.sessionId, request.turnId, request.requestId);
            ReportedUsage(PublishedEvents(Observable(e) + [OpenProvider(request)])) == []
  {
    var e := TurnBegan(request.sessionId, request.turnId, request.requestId);
    ObservableEvents(e);
    OpenIsSilent(request);
    PublishedConcat(Observable(e), [OpenProvider(request)]);
    OneEvent(e);
    assert [e] + [] == [e];
  }

  lemma EventReports(s: RunState, event: StreamEvent)
    requires s.Running? && OnEvent(s, event).1.Ok?
    ensures ReportedUsage(PublishedEvents(OnEvent(s, event).1.value))
            == if event.UsageReport? then [event.usage] else []
  {
    hide ReportedUsage, PublishedEvents, PersistedEvents, End, Collect, ObserveAll;
    match event {
      case ReasoningSeen => OneEvent(ReasoningFiltered);
      case TextDelta(delta) => OneEvent(VisibleText(delta));
      case UsageReport(usage) => OneEvent(UsageSeen(usage));
      case CallFragments(fragments) => FragmentsReportNothing(s, fragments);
      case StreamEnd(outcome) =>
        if outcome == StreamCompleted && s.pending != [] {
          BeginToolsIsSilent(s.pending);
        } else {
          EndReportsNothing(s, OutcomeOf(outcome), false);
        }
    }
  }

  lemma {:induction false} TextConcat(a: seq<RuntimeEvent>, b: seq<RuntimeEvent>)
    ensures ShownText(a + b) == ShownText(a) + ShownText(b)
  {
    if b == [] {
      assert a + b == a;
      assert ShownText(a) + "" == ShownText(a);
    } else {
      assert (a + b)[..|a + b| - 1] == a + b[..|b| - 1];
      TextConcat(a, b[..|b| - 1]);
    }
  }

  /** Over any inputs: a run shows exactly the text and reports exactly the usage that it was fed while it
      ran, in order; and the usage of its receipt is their capped total. */
  lemma {:induction false} ShowsWhatItTook(inputs: seq<RunInput>)
    ensures var events := PublishedEvents(RunAll(inputs).effects);
            ShownText(events) == TakenText(inputs) && ReportedUsage(events) == TakenUsage(inputs)
    ensures UsageOf(RunAll(inputs).state) == TotalUsage(TakenUsage(inputs))
  {
    hide RunStep, PublishedEvents, PersistedEvents, TotalUsage, ShownText, ReportedUsage;
    RunIsWellRun(inputs);
    if inputs == [] {
      NothingShown();
      NoTextShown([]);
    } else {
      var init, input := inputs[..|inputs| - 1], inputs[|inputs| - 1];
      ShowsWhatItTook(init);
      var before := RunAll(init);
      var reply := RunStep(before.state, input).1;
      if reply.Ok? {
        PublishedConcat(before.effects, reply.value);
        TextConcat(PublishedEvents(before.effects), PublishedEvents(reply.value));
        UsageConcat(PublishedEvents(before.effects), PublishedEvents(reply.value));
        StepShowsText(before.state, input);
        StepReports(before.state, input);
      } else {
        assert before.effects + [] == before.effects;
        OnlyTextAndUsage(before.state, input);
      }
    }
  }

  lemma OnlyTextAndUsage(s: RunState, input: RunInput)
    requires RunStep(s, input).1.Err?
    ensures s.Running? && input.ProviderEvent? ==> !input.event.TextDelta? && !input.event.UsageReport?
  {
  }

  // ---------------------------------------------------------------- what a run takes

  /** The request goes on with the turn that waits, and has an output for each call. */
  ghost predicate GoesOn(request: TurnRequest, previous: TurnRequest, calls: seq<ToolInvocation>) {
    && request.sessionId == previous.sessionId && request.turnId == previous.turnId
    && request.requestId == previous.requestId && request.binding == previous.binding
    && forall i :: 0 <= i < |calls| ==> HasOutput(request.messages, calls[i].call.callId)
  }

  ghost predicate HasOutput(messages: seq<ConversationItem>, id: CallId) {
    exists k :: 0 <= k < |messages| && messages[k].ToolOutput? && messages[k].result.callId == id
  }

  /** Whether a run takes an input, told input by input. */
  ghost predicate Takes(s: RunState, input: RunInput) {
    match input
    case Begin(request) => s.Idle? && ValidRequest(request)
    case ContinueAfterTools(request) =>
      s.AwaitingTools? && ValidRequest(request) && GoesOn(request, s.request, s.invocations)
    case ProviderEvent(CallFragments(fragments)) =>
      s.Running? && (s.request.tools == [] || Collect(s.request.tools, s.pending, fragments).1.Ok?)
    case ProviderEvent(_) | ProviderFailed(_) | ProviderEof => s.Running?
    case Cancel => !s.Idle?
    case Shutdown => true
  }

  /** What a run says to an input that it does not take. */
  ghost predicate Denies(s: RunState, input: RunInput, code: RuntimeErrorCode) {
    if (s.Running? && (input.Begin? || input.ContinueAfterTools?)) || (s.AwaitingTools? && input.Begin?) then
      code == WorkspaceBusy
    else if input.Begin? && s.Idle? then code == Configuration
    else if input.ContinueAfterTools? && s.AwaitingTools? then
      code == if ValidRequest(input.request) then Recovery else Configuration
    else if s.Running? then
      && input.ProviderEvent? && input.event.CallFragments?
      && Collect(s.request.tools, s.pending, input.event.fragments).1 == Err(code)
    else if s.Terminal? && input.ProviderEvent? && input.event.StreamEnd? then code == ProtocolDuplicateTerminal
    else code == ProtocolEventAfterTerminal
  }

  /** A run takes exactly what its state allows, and says why it does not take the rest. */
  lemma TakesExactly(s: RunState, input: RunInput)
    ensures RunStep(s, input).1.Ok? <==> Takes(s, input)
    ensures RunStep(s, input).1.Err? ==> Denies(s, input, RunStep(s, input).1.error)
  {
    hide ValidRequest, Collect;
    if s.AwaitingTools? && input.ContinueAfterTools? {
      forall i | 0 <= i < |s.invocations|
        ensures HasOutput(input.request.messages, s.invocations[i].call.callId)
                <==> HasResultFor(input.request.messages, s.invocations[i].call.callId)
      {
      }
    }
  }

  /** Where an input that is taken leads, as long as the turn lives. */
  lemma TakenLeads(s: RunState, input: RunInput)
    requires Takes(s, input) && !RunStep(s, input).0.Terminal?
    ensures var (next, reply) := RunStep(s, input);
            match input
            case Begin(request) =>
              && next == RunState.Running(request, None, [])
              && var began := TurnBegan(request.sessionId, request.turnId, request.requestId);
                 reply == Ok([Persist(began), Publish(began), OpenProvider(request)])
            case ContinueAfterTools(request) =>
              next == RunState.Running(request, s.usage, []) && reply == Ok([OpenProvider(request)])
            case ProviderEvent(ReasoningSeen) | ProviderEvent(TextDelta(_)) => next == s
            case ProviderEvent(UsageReport(_)) =>
              next.Running? && next == RunState.Running(s.request, next.usage, s.pending)
            case ProviderEvent(CallFragments(_)) =>
              next.Running? && next == RunState.Running(s.request, s.usage, next.pending)
            case ProviderEvent(StreamEnd(outcome)) =>
              && outcome == StreamCompleted && s.pending != []
              && next == AwaitingTools(s.request, s.usage, s.pending) && reply == Ok([BeginTools(s.pending)])
            case ProviderFailed(_) | ProviderEof | Cancel => false
            case Shutdown => s.Idle? && next == s && reply == Ok([])
  {
    hide ValidRequest, Collect;
    if input.Begin? {
      var began := TurnBegan(input.request.sessionId, input.request.turnId, input.request.requestId);
      assert Observable(began) + [OpenProvider(input.request)]
          == [Persist(began), Publish(began), OpenProvider(input.request)];
    }
  }

  // ---------------------------------------------------------------- the calls

  /** A fragment is taken as the call it spells, exactly if it is complete, valid, of a tool of the
      request that takes such arguments and that the runtime knows, and has an id of its own. */
  lemma FragmentIsItsCall(tools: seq<ToolDefinition>, pending: seq<ToolInvocation>, f: Fragment)
    ensures var inv := InvocationFrom(tools, pending, f);
            && (inv.Ok? <==>
                && Spelled(f)
                && (exists k :: 0 <= k < |tools| && IsFirst(tools, k, f.name.value) && tools[k].wellFormedSchema
                                && tools[k].required <= f.arguments.value.keys.value <= tools[k].properties)
                && (forall i :: 0 <= i < |pending| ==> pending[i].call.callId != f.callId)
                && Known(f.name.value))
            && (inv.Ok? ==>
                  && inv.value.call == ToolCall(f.callId, f.name.value, f.arguments.value)
                  && (inv.value.effect == Read <==> f.name.value in {"read_file", "list_directory"})
                  && (inv.value.effect == Write <==> f.name.value in {"apply_patch", "write_file"}))
  {
    hide ValidCode;
    if f.name.Some? {
      FindsFirst(tools, f.name.value);
    }
  }

  /** The fragment spells a whole call of some name. */
  ghost predicate Spelled(f: Fragment) {
    && f.complete && f.name.Some? && f.arguments.Some? && ValidCode(f.name.value)
    && f.arguments.value.bytes <= MAX_TOOL_ARGUMENT_BYTES && f.arguments.value.keys.Some?
  }

  ghost predicate Offered(tools: seq<ToolDefinition>, name: string) {
    exists k :: 0 <= k < |tools| && tools[k].name == name
  }

  /** Nothing but the name can be wrong: an offered tool takes the arguments, and the id is its own. */
  ghost predicate OnlyTheName(tools: seq<ToolDefinition>, pending: seq<ToolInvocation>, f: Fragment)
    requires Spelled(f)
  {
    Offered(tools, f.name.value) ==>
      && (exists k :: 0 <= k < |tools| && IsFirst(tools, k, f.name.value) && tools[k].wellFormedSchema
                      && tools[k].required <= f.arguments.value.keys.value <= tools[k].properties)
      && (forall i :: 0 <= i < |pending| ==> pending[i].call.callId != f.callId)
  }

  /** The refusal names the tool exactly if a whole call names one that is not offered, or not known. */
  lemma UnavailableExactly(tools: seq<ToolDefinition>, pending: seq<ToolInvocation>, f: Fragment)
    ensures InvocationFrom(tools, pending, f) == Err(ToolUnavailable) <==>
              && Spelled(f) && OnlyTheName(tools, pending, f)
              && (!Offered(tools, f.name.value) || !Known(f.name.value))
    ensures InvocationFrom(tools, pending, f).Err? ==>
              InvocationFrom(tools, pending, f).error in {ToolUnavailable, ProtocolMalformedJson}
  {
    hide ValidCode;
    if f.name.Some? {
      FindsFirst(tools, f.name.value);
      if FindTool(tools, f.name.value).None? {
        assert !Offered(tools, f.name.value);
      } else {
        assert Offered(tools, f.name.value);
      }
    }
  }

  /** A batch is taken call by call, each after those before it, as far as the fragments are good. */
  lemma {:induction false} CollectTells(tools: seq<ToolDefinition>, pending: seq<ToolInvocation>,
                                        fragments: seq<Fragment>)
    returns (calls: seq<ToolInvocation>)
    ensures |calls| <= |fragments| && Collect(tools, pending, fragments).0 == pending + calls
    ensures forall n :: 0 <= n < |calls| ==> InvocationFrom(tools, pending + calls[..n], fragments[n]) == Ok(calls[n])
    ensures var reply := Collect(tools, pending, fragments).1;
            && (reply.Ok? <==> |calls| == |fragments|)
            && (reply.Err? ==> InvocationFrom(tools, pending + calls, fragments[|calls|]) == Err(reply.error))
    decreases fragments
  {
    hide InvocationFrom;
    calls := [];
    assert pending + [] == pending;
    if fragments != [] {
      var inv := InvocationFrom(tools, pending, fragments[0]);
      if inv.Ok? {
        var rest := CollectTells(tools, pending + [inv.value], fragments[1..]);
        calls := [inv.value] + rest;
        assert pending + [inv.value] + rest == pending + calls;
        forall n | 0 <= n < |calls|
          ensures InvocationFrom(tools, pending + calls[..n], fragments[n]) == Ok(calls[n])
        {
          if n > 0 {
            assert pending + [inv.value] + rest[..n - 1] == pending + calls[..n];
            assert fragments[1..][n - 1] == fragments[n] && rest[n - 1] == calls[n];
          }
        }
      }
    }
  }

  /** The first tool of this name. */
  ghost predicate IsFirst(tools: seq<ToolDefinition>, k: nat, name: string)
    requires k < |tools|
  {
    tools[k].name == name && forall i :: 0 <= i < k ==> tools[i].name != name
  }

  lemma {:induction false} FindsFirst(tools: seq<ToolDefinition>, name: string)
    ensures FindTool(tools, name).Some? ==>
              exists k :: 0 <= k < |tools| && IsFirst(tools, k, name) && tools[k] == FindTool(tools, name).value
    ensures forall k :: 0 <= k < |tools| && IsFirst(tools, k, name) ==> FindTool(tools, name) == Some(tools[k])
  {
    if tools != [] {
      if tools[0].name == name {
        assert IsFirst(tools, 0, name);
      } else {
        FindsFirst(tools[1..], name);
        if FindTool(tools[1..], name).Some? {
          var k :| 0 <= k < |tools| - 1 && IsFirst(tools[1..], k, name)
                   && tools[1..][k] == FindTool(tools[1..], name).value;
          assert IsFirst(tools, k + 1, name);
        }
        forall k | 0 <= k < |tools| && IsFirst(tools, k, name) ensures FindTool(tools, name) == Some(tools[k]) {
          assert IsFirst(tools[1..], k - 1, name);
        }
      }
    }
  }

  /** A tool that the runtime can run. */
  predicate Known(name: string) {
    name in {"read_file", "list_directory", "apply_patch", "write_file", "run_diagnostic", "git_status", "git_diff",
             "npm_diagnostic", "shell_command", "shell_session"}
  }
}
