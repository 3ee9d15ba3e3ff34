/** What a wiki receipt says: how the run ended, and what it has cost. */
module WikiLaws {
  import opened Protocol
  import opened WikiWorkflow
  import opened WikiCourse
  import Laws = RunLaws
  import K = Knowledge
  import R = Runtime

  // ---------------------------------------------------------------- what was spent

  /** What an answer of the model cost. */
  function Reported(input: Input): seq<Usage> {
    match input
    case GeneratedPatch(_, usage) => [usage]
    case SchemaRejected(_, usage) => [usage]
    case UnsafeRejected(_, usage) => [usage]
    case _ => []
  }

  /** A workflow and the costs of all answers it has taken since it began or was last bound anew. */
  datatype Account = Account(flow: Flow, reports: seq<Usage>)

  /** Inputs fed in order; a refused input is not taken. */
  function AccountOf(f: Flow, inputs: seq<Input>): Account {
    if inputs == [] then Account(f, []) else
    var before := AccountOf(f, inputs[..|inputs| - 1]);
    var input := inputs[|inputs| - 1];
    var step := FlowStep(before.flow, input);
    if step.Err? then before
    else Account(step.value.0, if input.Rebind? then [] else before.reports + Reported(input))
  }

  /** An event of this input tells the cost so far, if there is one, once the model has been asked. */
  predicate EventSaysCost(input: Input, binding: ModelBinding, total: Option<Usage>, event: WikiEvent) {
    event.usage == if input.Evaluated? || input.Rebind? || total.None? then None else Some((binding, total.value))
  }

  predicate SaysCost(input: Input, binding: ModelBinding, total: Option<Usage>, e: Effect) {
    match e
    case PersistReceipt(receipt) => receipt.usage == total
    case PublishReceipt(receipt) => receipt.usage == total
    case PersistEvent(event) => EventSaysCost(input, binding, total, event)
    case PublishEvent(event) => EventSaysCost(input, binding, total, event)
    case _ => true
  }

  predicate AllSayCost(input: Input, binding: ModelBinding, total: Option<Usage>, effects: seq<Effect>) {
    forall i :: 0 <= i < |effects| ==> SaysCost(input, binding, total, effects[i])
  }

  lemma SayCostConcat(input: Input, binding: ModelBinding, total: Option<Usage>, a: seq<Effect>, b: seq<Effect>)
    requires AllSayCost(input, binding, total, a) && AllSayCost(input, binding, total, b)
    ensures AllSayCost(input, binding, total, a + b)
  {
    hide SaysCost;
  }

  lemma ObservedSaysCost(f: Flow, code: string, usage: Option<Usage>, input: Input, total: Option<Usage>,
                         tail: seq<Effect>)
    requires usage == if input.Evaluated? || input.Rebind? then None else total
    requires AllSayCost(input, f.binding, total, tail)
    ensures AllSayCost(input, f.binding, total, Observed(f, code, usage) + tail)
  {
    SayCostConcat(input, f.binding, total, Observed(f, code, usage), tail);
  }

  lemma EndSaysCost(f: Flow, state: WorkflowState, code: string, usage: Option<Usage>,
                    transaction: Option<TransactionId>, input: Input)
    requires EndIn(f, state, code, usage, transaction).Ok?
    requires usage == if input.Evaluated? || input.Rebind? then None else f.usage
    ensures var (g, effects) := EndIn(f, state, code, usage, transaction).value;
            g.usage == f.usage && g.binding == f.binding && AllSayCost(input, f.binding, f.usage, effects)
  {
    hide ValidCode;
    var g := f.(state := state);
    ObservedSaysCost(g, code, usage, input, f.usage, ReceiptFor(g, state, code, transaction));
  }

  /** After each input the workflow's usage, its events and its receipt tell the total of the costs. */
  lemma StepSaysCost(f: Flow, input: Input, reports: seq<Usage>)
    requires FlowStep(f, input).Ok? && f.usage == Laws.TotalUsage(reports)
    ensures var (g, effects) := FlowStep(f, input).value;
            var total := Laws.TotalUsage(if input.Rebind? then [] else reports + Reported(input));
            g.usage == total && AllSayCost(input, g.binding, total, effects)
  {
    if Reported(input) != [] {
      Laws.TotalUsageStep(reports, Reported(input)[0]);
    } else {
      assert reports + [] == reports;
    }
    NoCost();
    hide Laws.TotalUsage, R.MergeUsage, ValidCode, CodeText, AllSayCost, Observed, EndIn;
    var (g, effects) := FlowStep(f, input).value;
    match input
    case Evaluated(Passing(code)) => EndSaysCost(f, NoOp, CodeText(code), None, None, input);
    case Evaluated(Durable(code)) => DurableSaysCost(f, code);
    case GeneratedPatch(patch, usage) =>
      OtherSaysCost(input, g.binding, g.usage, Validate(patch));
      ObservedSaysCost(g, "patch_received", g.usage, input, g.usage, [Validate(patch)]);
    case SchemaRejected(code, usage) =>
      if f.attempts >= 2 {
        EndSaysCost(WithUsage(f, usage), WorkflowState.Failed, "schema_repair_exhausted", WithUsage(f, usage).usage,
                    None, input);
      } else {
        OtherSaysCost(input, g.binding, g.usage, Generate(Request(f.binding, true)));
        ObservedSaysCost(g, "schema_repair_started", g.usage, input, g.usage, [Generate(Request(f.binding, true))]);
      }
    case UnsafeRejected(code, usage) =>
      EndSaysCost(WithUsage(f, usage), WorkflowState.Failed, code, WithUsage(f, usage).usage, None, input);
    case GenerationUnavailable(code) => EndSaysCost(f, Pending, code, f.usage, None, input);
    case SemanticRejected(code) => EndSaysCost(f, WorkflowState.Failed, code, f.usage, None, input);
    case PatchValidated(hash) =>
      OtherSaysCost(input, g.binding, g.usage, Commit(f.patch.value, hash));
      ObservedSaysCost(g, "patch_validated", g.usage, input, g.usage, [Commit(f.patch.value, hash)]);
    case Committed(transaction) => EndSaysCost(f, Synthesized, "synthesized", f.usage, Some(transaction), input);
    case CommitPending(code) => EndSaysCost(f, Pending, code, f.usage, None, input);
    case Rebind(binding) =>
      OtherSaysCost(input, g.binding, None, Generate(Request(binding, false)));
      ObservedSaysCost(g, "explicit_model_rebind", None, input, None, [Generate(Request(binding, false))]);
    case Recover =>
      if f.state in {SynthesisPending, Generating, Validating, Committing} {
        EndSaysCost(f, Pending, "recovered_pending", f.usage, None, input);
      } else {
        NothingSaid(input, g.binding, g.usage);
      }
  }

  lemma NoCost()
    ensures Laws.TotalUsage([]) == None
  {
  }

  lemma NothingSaid(input: Input, binding: ModelBinding, total: Option<Usage>)
    ensures AllSayCost(input, binding, total, [])
  {
  }

  lemma OtherSaysCost(input: Input, binding: ModelBinding, total: Option<Usage>, e: Effect)
    requires !Quiet(e) && !e.PublishReceipt?
    ensures AllSayCost(input, binding, total, [e])
  {
  }

  lemma DurableSaysCost(f: Flow, code: DurabilityCode)
    ensures var (g, effects) := AfterEvaluation(f, Durable(code)).value;
            AllSayCost(Evaluated(Durable(code)), f.binding, f.usage, effects)
  {
    hide CodeText, AllSayCost, Observed;
    var input := Evaluated(Durable(code));
    var g := f.(state := Generating, attempts := 1);
    var loud := Generate(Request(f.binding, false));
    OtherSaysCost(input, f.binding, f.usage, loud);
    ObservedSaysCost(g, "generation_started", None, input, f.usage, [loud]);
    var pending := f.(state := SynthesisPending);
    ObservedSaysCost(pending, CodeText(code), None, input, f.usage, Observed(g, "generation_started", None) + [loud]);
    assert AfterEvaluation(f, Durable(code)).value.1
        == Observed(pending, CodeText(code), None) + (Observed(g, "generation_started", None) + [loud]);
  }

  /** Whatever a workflow that began without costs is fed, its usage is the capped total of the costs of
      the answers it took since it began or was last bound anew, and is absent if there were none. */
  lemma {:induction false} UsageIsTotal(f: Flow, inputs: seq<Input>)
    requires f.usage.None?
    ensures AccountOf(f, inputs).flow.usage == Laws.TotalUsage(AccountOf(f, inputs).reports)
  {
    hide FlowStep, Laws.TotalUsage;
    NoCost();
    if inputs != [] {
      var init, input := inputs[..|inputs| - 1], inputs[|inputs| - 1];
      UsageIsTotal(f, init);
      var before := AccountOf(f, init);
      if FlowStep(before.flow, input).Ok? {
        StepSaysCost(before.flow, input, before.reports);
      }
    }
  }

  // ---------------------------------------------------------------- how a run ended

  /** How the workflow ended, told by the input that ended it. */
  predicate TellsHow(f: Flow, input: Input, receipt: Receipt) {
    && receipt.binding == f.binding && receipt.patchHash == f.patchHash
    && receipt.transaction == (if input.Committed? then Some(input.transaction) else None)
    && (receipt.outcome == NoOp <==> input.Evaluated?)
    && (receipt.outcome == Synthesized <==> input.Committed?)
    && (receipt.outcome == WorkflowState.Failed <==>
        input.SchemaRejected? || input.UnsafeRejected? || input.SemanticRejected?)
    && (receipt.outcome == Pending <==> input.GenerationUnavailable? || input.CommitPending? || input.Recover?)
    && match input
       case Evaluated(decision) => decision.Passing? && receipt.code == CodeText(decision.code)
       case SchemaRejected(_, _) => f.attempts >= 2 && receipt.code == "schema_repair_exhausted"
       case UnsafeRejected(code, _) => receipt.code == code
       case SemanticRejected(code) => receipt.code == code
       case GenerationUnavailable(code) => receipt.code == code
       case Committed(_) => receipt.code == "synthesized"
       case CommitPending(code) => receipt.code == code
       case Recover => receipt.code == "recovered_pending"
       case _ => false
  }

  /** Every receipt among the effects is this one, whatever it cost. */
  predicate ShowsOnly(effects: seq<Effect>, outcome: WorkflowState, code: string, f: Flow,
                      done: Option<TransactionId>) {
    forall i :: 0 <= i < |effects| && (effects[i].PublishReceipt? || effects[i].PersistReceipt?) ==>
      && effects[i].receipt.outcome == outcome && effects[i].receipt.code == code
      && effects[i].receipt.binding == f.binding && effects[i].receipt.patchHash == f.patchHash
      && effects[i].receipt.transaction == done
  }

  lemma EndShows(f: Flow, state: WorkflowState, code: string, usage: Option<Usage>, done: Option<TransactionId>)
    requires EndIn(f, state, code, usage, done).Ok?
    ensures var (g, effects) := EndIn(f, state, code, usage, done).value;
            g.binding == f.binding && ShowsOnly(effects, state, code, f, done)
  {
  }

  lemma EndTellsHow(f: Flow, input: Input)
    requires FlowStep(f, input).Ok?
    ensures var (g, effects) := FlowStep(f, input).value;
            && g.binding == (if input.Rebind? then input.binding else f.binding)
            && forall i :: 0 <= i < |effects| ==>
                 && (effects[i].PublishReceipt? ==> TellsHow(f, input, effects[i].receipt))
                 && (effects[i].PersistReceipt? ==> TellsHow(f, input, effects[i].receipt))
  {
    hide ValidCode, CodeText, R.MergeUsage, EndIn;
    match input
    case Evaluated(Passing(code)) => EndShows(f, NoOp, CodeText(code), None, None);
    case SchemaRejected(_, usage) =>
      var g := WithUsage(f, usage);
      if g.attempts >= 2 {
        EndShows(g, WorkflowState.Failed, "schema_repair_exhausted", g.usage, None);
      }
    case UnsafeRejected(code, usage) =>
      EndShows(WithUsage(f, usage), WorkflowState.Failed, code, WithUsage(f, usage).usage, None);
    case SemanticRejected(code) => EndShows(f, WorkflowState.Failed, code, f.usage, None);
    case GenerationUnavailable(code) => EndShows(f, Pending, code, f.usage, None);
    case Committed(transaction) => EndShows(f, Synthesized, "synthesized", f.usage, Some(transaction));
    case CommitPending(code) => EndShows(f, Pending, code, f.usage, None);
    case Recover =>
      if f.state in {SynthesisPending, Generating, Validating, Committing} {
        EndShows(f, Pending, "recovered_pending", f.usage, None);
      }
    case Evaluated(Durable(_)) | GeneratedPatch(_, _) | PatchValidated(_) | Rebind(_) =>
  }

  // ---------------------------------------------------------------- runs of the driver

  /** A run feeds its workflow only what it takes. */
  lemma {:induction false} CourseAccounts(w: World, start: Held, inputs: seq<Input>)
    requires Legal(w, start, inputs) && CourseOf(w, start, inputs).reply.Ok?
    ensures AccountOf(Opening(w, start).flow, inputs).flow == CourseOf(w, start, inputs).flow
  {
    hide DoAll, FlowStep, Answers, EntryOps, EffectOps;
    if inputs != [] {
      CourseAccounts(w, start, inputs[..|inputs| - 1]);
    }
  }

  /** What the receipt of a run tells: how it ended, and all that it cost. */
  ghost predicate Tells(w: World, start: Held, inputs: seq<Input>, receipt: Receipt) {
    && inputs != []
    && TellsHow(CourseOf(w, start, inputs[..|inputs| - 1]).flow, inputs[|inputs| - 1], receipt)
    && receipt.usage == Laws.TotalUsage(AccountOf(Opening(w, start).flow, inputs).reports)
  }

  lemma ReceiptTells(w: World, start: Held, inputs: seq<Input>)
    requires Legal(w, start, inputs) && CourseOf(w, start, inputs).reply.Ok? && Ended(CourseOf(w, start, inputs).flow)
    ensures CourseOf(w, start, inputs).receipt.Some?
    ensures Tells(w, start, inputs, CourseOf(w, start, inputs).receipt.value)
  {
    hide DoAll, FlowStep, EntryOps, Moves, EffectOps, EventsOf, TellsHow, Answers, Laws.TotalUsage;
    var init, input := inputs[..|inputs| - 1], inputs[|inputs| - 1];
    var c := CourseOf(w, start, init);
    AnswersMove(w, c.held.log, c.flow, input);
    CourseAccounts(w, start, init);
    UsageIsTotal(Opening(w, start).flow, init);
    var account := AccountOf(Opening(w, start).flow, init);
    StepOps(c.flow, input);
    EndTellsHow(c.flow, input);
    StepSaysCost(c.flow, input, account.reports);
    var effects := FlowStep(c.flow, input).value.1;
    assert SaysCost(input, FlowStep(c.flow, input).value.0.binding, FlowStep(c.flow, input).value.0.usage,
                    effects[|effects| - 1]);
  }

  /** An event of a run tells the cost as it stood after the input that made it. */
  ghost predicate ToldAfter(w: World, start: Held, inputs: seq<Input>, event: WikiEvent, n: nat)
    requires n < |inputs|
  {
    var account := AccountOf(Opening(w, start).flow, inputs[..n + 1]);
    EventSaysCost(inputs[n], account.flow.binding, Laws.TotalUsage(account.reports), event)
  }

  lemma {:induction false} EventsAreOfEffects(effects: seq<Effect>, event: WikiEvent)
    requires event in EventsOf(effects)
    ensures PublishEvent(event) in effects
  {
    if event !in EventsOf(effects[1..]) {
      assert effects[0] == PublishEvent(event);
    } else {
      EventsAreOfEffects(effects[1..], event);
    }
  }

  /** Every event that a run publishes tells the cost so far. */
  lemma {:induction false} EventsTell(w: World, start: Held, inputs: seq<Input>)
    requires Legal(w, start, inputs) && CourseOf(w, start, inputs).reply.Ok?
    ensures forall event :: event in CourseOf(w, start, inputs).events ==>
              exists n :: 0 <= n < |inputs| && ToldAfter(w, start, inputs, event, n)
  {
    hide DoAll, FlowStep, EntryOps, Answers, EffectOps, EventsOf, EventSaysCost, Laws.TotalUsage;
    if inputs != [] {
      var init, input := inputs[..|inputs| - 1], inputs[|inputs| - 1];
      EventsTell(w, start, init);
      var c := CourseOf(w, start, init);
      CourseAccounts(w, start, init);
      UsageIsTotal(Opening(w, start).flow, init);
      var account := AccountOf(Opening(w, start).flow, init);
      StepSaysCost(c.flow, input, account.reports);
      var effects := FlowStep(c.flow, input).value.1;
      assert inputs[..|init| + 1] == inputs;
      forall event | event in CourseOf(w, start, inputs).events
        ensures exists n :: 0 <= n < |inputs| && ToldAfter(w, start, inputs, event, n)
      {
        if event in c.events {
          var n :| 0 <= n < |init| && ToldAfter(w, start, init, event, n);
          assert init[..n + 1] == inputs[..n + 1];
          assert ToldAfter(w, start, inputs, event, n);
        } else {
          EventsAreOfEffects(effects, event);
          var i :| 0 <= i < |effects| && effects[i] == PublishEvent(event);
          assert SaysCost(input, FlowStep(c.flow, input).value.0.binding, FlowStep(c.flow, input).value.0.usage,
                          effects[i]);
          assert ToldAfter(w, start, inputs, event, |init|);
        }
      }
    }
  }
}
