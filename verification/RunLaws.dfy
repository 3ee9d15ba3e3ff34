/** What holds of every run of the run machine, whatever the provider and the driver feed it. */
module RunLaws {
  import opened Protocol
  import opened Requests
  import opened Runtime

  /** A run so far: the machine's state and every effect it emitted. */
  datatype Trail = Trail(state: RunState, effects: seq<RunEffect>)

  /** All inputs fed in order; a refused input emits nothing. */
  ghost function RunAll(inputs: seq<RunInput>): Trail {
    if inputs == [] then Trail(Idle, []) else
    var before := RunAll(inputs[..|inputs| - 1]);
    var (next, reply) := RunStep(before.state, inputs[|inputs| - 1]);
    Trail(next, before.effects + if reply.Ok? then reply.value else [])
  }

  // ---------------------------------------------------------------- what a run shows

  function PersistedEvents(effects: seq<RunEffect>): seq<RuntimeEvent> {
    if effects == [] then [] else
    var last := effects[|effects| - 1];
    PersistedEvents(effects[..|effects| - 1]) + if last.Persist? then [last.event] else []
  }

  function PublishedEvents(effects: seq<RunEffect>): seq<RuntimeEvent> {
    if effects == [] then [] else
    var last := effects[|effects| - 1];
    PublishedEvents(effects[..|effects| - 1]) + if last.Publish? then [last.event] else []
  }

  /** The usage a list of events reports, in order. */
  function ReportedUsage(events: seq<RuntimeEvent>): seq<Usage> {
    if events == [] then [] else
    var last := events[|events| - 1];
    ReportedUsage(events[..|events| - 1]) + if last.UsageSeen? then [last.usage] else []
  }

  /** The text a list of events shows. */
  function ShownText(events: seq<RuntimeEvent>): string {
    if events == [] then "" else
    var last := events[|events| - 1];
    ShownText(events[..|events| - 1]) + if last.VisibleText? then last.delta else ""
  }

  function Present(values: seq<Option<U64>>): seq<nat> {
    if values == [] then [] else
    var last := values[|values| - 1];
    Present(values[..|values| - 1]) + if last.Some? then [last.value] else []
  }

  /** The total of the values that were given: none if none was, and never past the top of the range. */
  function Total(values: seq<Option<U64>>): Option<U64> {
    var given := Present(values);
    if given == [] then None else Some(if Sum(given) > MAX_U64 then MAX_U64 else Sum(given))
  }

  function Inputs(reports: seq<Usage>): (f: seq<Option<U64>>) ensures |f| == |reports| {
    seq(|reports|, i requires 0 <= i < |reports| => reports[i].input)
  }

  function Outputs(reports: seq<Usage>): (f: seq<Option<U64>>) ensures |f| == |reports| {
    seq(|reports|, i requires 0 <= i < |reports| => reports[i].output)
  }

  function Totals(reports: seq<Usage>): (f: seq<Option<U64>>) ensures |f| == |reports| {
    seq(|reports|, i requires 0 <= i < |reports| => reports[i].total)
  }

  function TotalUsage(reports: seq<Usage>): Option<Usage> {
    if reports == [] then None
    else Some(Usage(Total(Inputs(reports)), Total(Outputs(reports)), Total(Totals(reports))))
  }

  lemma TotalStep(values: seq<Option<U64>>, next: Option<U64>)
    ensures Total(values + [next]) == AddOptional(Total(values), next)
  {
    var longer := values + [next];
    assert longer[..|longer| - 1] == values;
    var given := Present(values);
    if next.Some? {
      assert Present(longer) == given + [next.value];
      assert (given + [next.value])[..|given|] == given;
    } else {
      assert Present(longer) == given;
    }
  }

  lemma TotalUsageStep(reports: seq<Usage>, next: Usage)
    ensures TotalUsage(reports + [next]) == Some(MergeUsage(TotalUsage(reports), next))
  {
    var longer := reports + [next];
    assert Inputs(longer) == Inputs(reports) + [next.input];
    assert Outputs(longer) == Outputs(reports) + [next.output];
    assert Totals(longer) == Totals(reports) + [next.total];
    TotalStep(Inputs(reports), next.input);
    TotalStep(Outputs(reports), next.output);
    TotalStep(Totals(reports), next.total);
  }

  // ---------------------------------------------------------------- appending

  lemma {:induction false} PersistedConcat(a: seq<RunEffect>, b: seq<RunEffect>)
    ensures PersistedEvents(a + b) == PersistedEvents(a) + PersistedEvents(b)
  {
    if b == [] {
      assert a + b == a;
    } else {
      assert (a + b)[..|a + b| - 1] == a + b[..|b| - 1];
      PersistedConcat(a, b[..|b| - 1]);
    }
  }

  lemma {:induction false} PublishedConcat(a: seq<RunEffect>, b: seq<RunEffect>)
    ensures PublishedEvents(a + b) == PublishedEvents(a) + PublishedEvents(b)
  {
    if b == [] {
      assert a + b == a;
    } else {
      assert (a + b)[..|a + b| - 1] == a + b[..|b| - 1];
      PublishedConcat(a, b[..|b| - 1]);
    }
  }

  lemma {:induction false} UsageConcat(a: seq<RuntimeEvent>, b: seq<RuntimeEvent>)
    ensures ReportedUsage(a + b) == ReportedUsage(a) + ReportedUsage(b)
  {
    if b == [] {
      assert a + b == a;
    } else {
      assert (a + b)[..|a + b| - 1] == a + b[..|b| - 1];
      UsageConcat(a, b[..|b| - 1]);
    }
  }

  // ---------------------------------------------------------------- one step

  predicate EndsRun(e: RunEffect) {
    e.Finalize? || (e.Persist? && e.event.TurnEnded?) || (e.Publish? && e.event.TurnEnded?)
  }

  /** No effect of these ends the run. */
  predicate Ongoing(effects: seq<RunEffect>) {
    forall i :: 0 <= i < |effects| ==> !EndsRun(effects[i])
  }

  function Closing(receipt: TurnReceipt): seq<RunEffect> {
    [Persist(TurnEnded(receipt.outcome)), Publish(TurnEnded(receipt.outcome)), Finalize(receipt)]
  }

  /** The effects end with the one end of the run. */
  ghost predicate Closes(effects: seq<RunEffect>, receipt: TurnReceipt) {
    exists before :: Ongoing(before) && effects == before + Closing(receipt)
  }

  /** Effects that are persisted are published, in the same order. */
  ghost predicate ShowsWhatItKeeps(effects: seq<RunEffect>) {
    PersistedEvents(effects) == PublishedEvents(effects)
  }

  lemma ObservableEvents(e: RuntimeEvent)
    ensures PersistedEvents(Observable(e)) == [e] && PublishedEvents(Observable(e)) == [e]
  {
    var o := Observable(e);
    assert o[..1] == [Persist(e)] && [Persist(e)][..0] == [];
    assert PersistedEvents([Persist(e)]) == [e] && PublishedEvents([Persist(e)]) == [];
  }

  /** Effects that only show call fragments. */
  ghost predicate OnlyObserves(effects: seq<RunEffect>) {
    && Ongoing(effects) && ShowsWhatItKeeps(effects)
    && ReportedUsage(PublishedEvents(effects)) == []
  }

  lemma OneMoreObserved(id: CallId, name: Option<string>, rest: seq<RunEffect>)
    requires OnlyObserves(rest)
    ensures OnlyObserves(Observable(CallObserved(id, name)) + rest)
  {
    var e := CallObserved(id, name);
    ObservableEvents(e);
    PersistedConcat(Observable(e), rest);
    PublishedConcat(Observable(e), rest);
    UsageConcat([e], PublishedEvents(rest));
    assert ReportedUsage([e]) == [] by { assert [e][..0] == []; }
  }

  lemma {:induction false} ObserveAllOnlyObserves(fragments: seq<Fragment>)
    ensures OnlyObserves(ObserveAll(fragments))
  {
    if fragments != [] {
      ObserveAllOnlyObserves(fragments[1..]);
      OneMoreObserved(fragments[0].callId, fragments[0].name, ObserveAll(fragments[1..]));
    }
  }

  lemma {:induction false} CollectOnlyObserves(tools: seq<ToolDefinition>, pending: seq<ToolInvocation>,
                                               fragments: seq<Fragment>)
    ensures var reply := Collect(tools, pending, fragments).1;
            reply.Ok? ==> OnlyObserves(reply.value)
    decreases fragments
  {
    hide OnlyObserves, InvocationFrom;
    if fragments == [] {
      NothingObserved();
    } else {
      var inv := InvocationFrom(tools, pending, fragments[0]);
      if inv.Ok? {
        CollectOnlyObserves(tools, pending + [inv.value], fragments[1..]);
        var tail := Collect(tools, pending + [inv.value], fragments[1..]).1;
        if tail.Ok? {
          OneMoreObserved(inv.value.call.callId, Some(inv.value.call.name), tail.value);
        }
      }
    }
  }

  lemma NothingObserved()
    ensures OnlyObserves([])
  {
  }

  lemma SilentLead(seen: seq<RunEffect>, abort: bool)
    ensures var lead := if abort then [AbortProvider] else [];
            && PersistedEvents(seen + lead) == PersistedEvents(seen)
            && PublishedEvents(seen + lead) == PublishedEvents(seen)
  {
    if abort {
      assert (seen + [AbortProvider])[..|seen|] == seen;
    } else {
      assert seen + [] == seen;
    }
  }

  lemma ClosingEvents(receipt: TurnReceipt)
    ensures ShowsWhatItKeeps(Closing(receipt))
    ensures PublishedEvents(Closing(receipt)) == [TurnEnded(receipt.outcome)]
    ensures ReportedUsage([TurnEnded(receipt.outcome)]) == []
  {
    var c := Closing(receipt);
    ObservableEvents(TurnEnded(receipt.outcome));
    assert c[..2] == Observable(TurnEnded(receipt.outcome));
    assert [TurnEnded(receipt.outcome)][..0] == [];
  }

  /** A run that stops shows what it kept, reports no usage, and closes exactly once. */
  lemma EndCloses(s: RunState, outcome: Outcome, abort: bool, seen: seq<RunEffect>)
    requires Live(s) && OnlyObserves(seen)
    ensures var (next, reply) := End(s, outcome, abort);
            var effects := seen + reply.value;
            && next == Terminal(ReceiptOf(s, outcome)) && reply.Ok?
            && Closes(effects, next.receipt) && ShowsWhatItKeeps(effects)
            && ReportedUsage(PublishedEvents(effects)) == []
  {
    hide PersistedEvents, PublishedEvents, ReportedUsage;
    var receipt := ReceiptOf(s, outcome);
    var lead := if abort then [AbortProvider] else [];
    var effects := seen + End(s, outcome, abort).1.value;
    assert effects == (seen + lead) + Closing(receipt);
    SilentLead(seen, abort);
    PersistedConcat(seen + lead, Closing(receipt));
    PublishedConcat(seen + lead, Closing(receipt));
    ClosingEvents(receipt);
    UsageConcat(PublishedEvents(seen), [TurnEnded(receipt.outcome)]);
  }

  function UsageOf(s: RunState): Option<Usage> {
    match s
    case Idle => None
    case Running(_, usage, _) => usage
    case AwaitingTools(_, usage, _) => usage
    case Terminal(receipt) => receipt.usage
  }

  /** The ids a state has from the request it began with. */
  function IdsOf(s: RunState): Option<(SessionId, TurnId, RequestId)> {
    match s
    case Idle => None
    case Running(r, _, _) => Some((r.sessionId, r.turnId, r.requestId))
    case AwaitingTools(r, _, _) => Some((r.sessionId, r.turnId, r.requestId))
    case Terminal(r) => Some((r.sessionId, r.turnId, r.requestId))
  }

  /** What an input may do to a run: end it once, or go on; add exactly the usage it shows. */
  ghost predicate FairStep(s: RunState, next: RunState, effects: seq<RunEffect>) {
    && ShowsWhatItKeeps(effects)
    && (if s.Terminal? then next == s && effects == []
        else if next.Terminal? then Closes(effects, next.receipt)
        else Ongoing(effects))
    && (s.Idle? || IdsOf(next) == IdsOf(s))
    && (forall before :: UsageOf(s) == TotalUsage(before) ==>
          UsageOf(next) == TotalUsage(before + ReportedUsage(PublishedEvents(effects))))
  }

  lemma NoUsage(s: RunState, next: RunState, effects: seq<RunEffect>)
    requires UsageOf(next) == UsageOf(s) && ReportedUsage(PublishedEvents(effects)) == []
    ensures forall before :: UsageOf(s) == TotalUsage(before) ==>
              UsageOf(next) == TotalUsage(before + ReportedUsage(PublishedEvents(effects)))
  {
    forall before | UsageOf(s) == TotalUsage(before)
      ensures UsageOf(next) == TotalUsage(before + ReportedUsage(PublishedEvents(effects)))
    {
      assert before + [] == before;
    }
  }

  lemma FairEnd(s: RunState, outcome: Outcome, abort: bool, seen: seq<RunEffect>)
    requires Live(s) && OnlyObserves(seen)
    ensures FairStep(s, End(s, outcome, abort).0, seen + End(s, outcome, abort).1.value)
  {
    hide ShowsWhatItKeeps, Closes, OnlyObserves, TotalUsage, ReportedUsage, PublishedEvents;
    EndCloses(s, outcome, abort, seen);
    NoUsage(s, End(s, outcome, abort).0, seen + End(s, outcome, abort).1.value);
  }

  lemma OneEvent(e: RuntimeEvent)
    requires !e.TurnEnded?
    ensures Ongoing(Observable(e)) && ShowsWhatItKeeps(Observable(e))
    ensures ReportedUsage(PublishedEvents(Observable(e))) == if e.UsageSeen? then [e.usage] else []
  {
    ObservableEvents(e);
    assert [e][..0] == [];
  }

  lemma FairEvent(s: RunState, event: StreamEvent)
    requires s.Running?
    ensures var (next, reply) := OnEvent(s, event);
            FairStep(s, next, if reply.Ok? then reply.value else [])
  {
    hide ShowsWhatItKeeps, Closes, TotalUsage, ReportedUsage, PublishedEvents, PersistedEvents;
    var (next, reply) := OnEvent(s, event);
    match event {
      case ReasoningSeen =>
        OneEvent(ReasoningFiltered);
        NoUsage(s, next, reply.value);
      case TextDelta(delta) =>
        OneEvent(VisibleText(delta));
        NoUsage(s, next, reply.value);
      case UsageReport(usage) =>
        OneEvent(UsageSeen(usage));
        forall before | UsageOf(s) == TotalUsage(before) ensures UsageOf(next) == TotalUsage(before + [usage]) {
          TotalUsageStep(before, usage);
        }
      case CallFragments(fragments) =>
        if s.request.tools == [] {
          ObserveAllOnlyObserves(fragments);
          FairEnd(s, FailedWith(Failure.Failure(ToolUnavailable, None)), true, ObserveAll(fragments));
        } else {
          FairFragments(s, fragments);
        }
      case StreamEnd(outcome) =>
        if outcome == StreamCompleted && s.pending != [] {
          BeginToolsIsSilent(s.pending);
          NoUsage(s, next, reply.value);
        } else {
          NothingObserved();
          FairEnd(s, OutcomeOf(outcome), false, []);
          assert [] + reply.value == reply.value;
        }
    }
  }

  lemma BeginToolsIsSilent(invocations: seq<ToolInvocation>)
    ensures ShowsWhatItKeeps([BeginTools(invocations)])
    ensures ReportedUsage(PublishedEvents([BeginTools(invocations)])) == []
  {
    assert [BeginTools(invocations)][..0] == [];
  }

  lemma OpenIsSilent(request: TurnRequest)
    ensures ShowsWhatItKeeps([OpenProvider(request)])
    ensures ReportedUsage(PublishedEvents([OpenProvider(request)])) == []
    ensures PublishedEvents([OpenProvider(request)]) == [] == PersistedEvents([OpenProvider(request)])
  {
    assert [OpenProvider(request)][..0] == [];
  }

  lemma FairFragments(s: RunState, fragments: seq<Fragment>)
    requires s.Running?
    ensures var (pending, reply) := Collect(s.request.tools, s.pending, fragments);
            FairStep(s, s.(pending := pending), if reply.Ok? then reply.value else [])
  {
    NothingObserved();
    CollectOnlyObserves(s.request.tools, s.pending, fragments);
    var (pending, reply) := Collect(s.request.tools, s.pending, fragments);
    hide ShowsWhatItKeeps, TotalUsage, ReportedUsage, PublishedEvents, PersistedEvents, Collect;
    NoUsage(s, s.(pending := pending), if reply.Ok? then reply.value else []);
  }

  lemma FairBegin(request: TurnRequest)
    ensures FairStep(Idle, RunState.Running(request, None, []),
                     Observable(TurnBegan(request.sessionId, request.turnId, request.requestId))
                     + [OpenProvider(request)])
  {
    var e := TurnBegan(request.sessionId, request.turnId, request.requestId);
    ObservableEvents(e);
    OpenIsSilent(request);
    PersistedConcat(Observable(e), [OpenProvider(request)]);
    PublishedConcat(Observable(e), [OpenProvider(request)]);
    OneEvent(e);
    assert [e] + [] == [e];
    NoUsage(Idle, RunState.Running(request, None, []), Observable(e) + [OpenProvider(request)]);
  }

  lemma FairRunStep(s: RunState, input: RunInput)
    ensures var (next, reply) := RunStep(s, input);
            FairStep(s, next, if reply.Ok? then reply.value else [])
  {
    hide ShowsWhatItKeeps, Closes, TotalUsage, ReportedUsage, PublishedEvents, PersistedEvents, ValidRequest, OnEvent;
    NothingObserved();
    NothingShown();
    var (next, reply) := RunStep(s, input);
    if s.Running? && input.ProviderEvent? {
      FairEvent(s, input.event);
    } else if Live(s) && next.Terminal? {
      var outcome := next.receipt.outcome;
      FairEnd(s, outcome, s.Running?, []);
      assert [] + reply.value == reply.value;
    } else if s.Idle? && next.Running? {
      FairBegin(next.request);
    } else if s.AwaitingTools? && next.Running? {
      OpenIsSilent(next.request);
      NoUsage(s, next, reply.value);
    } else {
      NoUsage(s, next, []);
    }
  }

  lemma NothingShown()
    ensures ShowsWhatItKeeps([]) && ReportedUsage(PublishedEvents([])) == []
  {
  }

  // ---------------------------------------------------------------- whole runs

  /** How a run looks: nothing before it begins; then its begin event first, at most one end,
      last; everything kept is shown; and the usage is the total of what was reported. */
  ghost predicate WellRun(t: Trail) {
    && ShowsWhatItKeeps(t.effects)
    && UsageOf(t.state) == TotalUsage(ReportedUsage(PublishedEvents(t.effects)))
    && (t.state.Idle? <==> t.effects == [])
    && (t.effects != [] ==>
          var (sid, tid, rid) := IdsOf(t.state).value;
          t.effects[0] == Persist(TurnBegan(sid, tid, rid)))
    && (if t.state.Terminal? then Closes(t.effects, t.state.receipt) else Ongoing(t.effects))
  }

  lemma WellRunStep(t: Trail, next: RunState, effects: seq<RunEffect>)
    requires WellRun(t) && FairStep(t.state, next, effects)
    requires if t.state.Idle? && effects != []
             then !next.Idle? && var ids := IdsOf(next).value; effects[0] == Persist(TurnBegan(ids.0, ids.1, ids.2))
             else t.state.Idle? <==> next.Idle?
    ensures WellRun(Trail(next, t.effects + effects))
  {
    hide TotalUsage, ReportedUsage, PublishedEvents, PersistedEvents;
    PersistedConcat(t.effects, effects);
    PublishedConcat(t.effects, effects);
    UsageConcat(PublishedEvents(t.effects), PublishedEvents(effects));
    assert t.effects + [] == t.effects;
    if next.Terminal? && !t.state.Terminal? {
      var before :| Ongoing(before) && effects == before + Closing(next.receipt);
      assert t.effects + effects == (t.effects + before) + Closing(next.receipt);
    }
  }

  /** Whatever is fed to a run: at most one receipt, after which nothing is persisted or published;
      the receipt bears the ids of the request that began the run; its usage is the capped total of
      all reports, or absent when there were none; and what is persisted is what is published. */
  lemma {:induction false} RunIsWellRun(inputs: seq<RunInput>)
    ensures WellRun(RunAll(inputs))
  {
    hide FairStep, ValidRequest, WellRun;
    if inputs == [] {
      NothingWellRun();
    } else {
      RunIsWellRun(inputs[..|inputs| - 1]);
      var before := RunAll(inputs[..|inputs| - 1]);
      var input := inputs[|inputs| - 1];
      FairRunStep(before.state, input);
      var (next, reply) := RunStep(before.state, input);
      WellRunStep(before, next, if reply.Ok? then reply.value else []);
    }
  }

  lemma NothingWellRun()
    ensures WellRun(Trail(Idle, []))
  {
  }

  /** A finished run never says anything again and never changes its receipt. */
  lemma {:induction false} EndIsFinal(inputs: seq<RunInput>, more: seq<RunInput>)
    requires RunAll(inputs).state.Terminal?
    ensures RunAll(inputs + more) == RunAll(inputs)
  {
    if more == [] {
      assert inputs + more == inputs;
    } else {
      var all := inputs + more;
      assert all[..|all| - 1] == inputs + more[..|more| - 1];
      EndIsFinal(inputs, more[..|more| - 1]);
      assert RunAll(inputs).effects + [] == RunAll(inputs).effects;
    }
  }

  // ---------------------------------------------------------------- refusals

  /** Collecting never drops a pending call, and takes one as soon as the first fragment is good. */
  lemma {:induction false} CollectGrows(tools: seq<ToolDefinition>, pending: seq<ToolInvocation>,
                                        fragments: seq<Fragment>)
    ensures pending <= Collect(tools, pending, fragments).0
    ensures Collect(tools, pending, fragments).0 != pending
            <==> fragments != [] && InvocationFrom(tools, pending, fragments[0]).Ok?
    decreases fragments
  {
    if fragments != [] {
      var inv := InvocationFrom(tools, pending, fragments[0]);
      if inv.Ok? {
        CollectGrows(tools, pending + [inv.value], fragments[1..]);
      }
    }
  }

  /** A refused input changes a run exactly if it is a batch of fragments whose first is good: the calls
      before the bad one stay pending. */
  lemma RefusalChanges(s: RunState, input: RunInput)
    requires RunStep(s, input).1.Err?
    ensures RunStep(s, input).0 != s <==>
            && s.Running? && input.ProviderEvent? && input.event.CallFragments? && s.request.tools != []
            && input.event.fragments != []
            && InvocationFrom(s.request.tools, s.pending, input.event.fragments[0]).Ok?
  {
    hide Collect, InvocationFrom, ValidRequest;
    if s.Running? && input.ProviderEvent? && input.event.CallFragments? {
      CollectGrows(s.request.tools, s.pending, input.event.fragments);
    }
  }

  /** Two fragments, the first a good call and the second the same again: the batch is refused, and the
      first call is pending all the same. */
  lemma RepeatedFragment(s: RunState, f: Fragment)
    requires s.Running? && s.request.tools != [] && InvocationFrom(s.request.tools, s.pending, f).Ok?
    ensures var (next, reply) := RunStep(s, ProviderEvent(CallFragments([f, f])));
            && reply == Err(ProtocolMalformedJson)
            && next == s.(pending := s.pending + [InvocationFrom(s.request.tools, s.pending, f).value])
  {
    var inv := InvocationFrom(s.request.tools, s.pending, f).value;
    var longer := s.pending + [inv];
    assert longer[|s.pending|].call.callId == f.callId;
    assert InvocationFrom(s.request.tools, longer, f) == Err(ProtocolMalformedJson);
    hide InvocationFrom;
    assert [f, f][0] == f && [f, f][1..] == [f] && [f][0] == f;
    assert Collect(s.request.tools, longer, [f]) == (longer, Err(ProtocolMalformedJson));
    assert Collect(s.request.tools, s.pending, [f, f]) == (longer, Err(ProtocolMalformedJson));
  }

  /** Such a fragment and such a run there are. */
  lemma OneGoodFragment(request: TurnRequest)
    requires request.tools == [ToolDefinition("read_file", 0, true, {}, {})]
    ensures InvocationFrom(request.tools, [], Fragment(1, Some("read_file"), Some(Arguments(2, Some({}))), true)).Ok?
  {
    assert ValidCode("read_file");
  }
}
