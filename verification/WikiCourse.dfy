/** What a run of the wiki workflow comes to, read straight through: the inputs it is fed and what it
    leaves on disk; and the laws of such runs. */
module WikiCourse {
  import opened Protocol
  import opened WikiWorkflow
  import K = Knowledge
  import R = Runtime

  datatype GenerationError = ModelUnavailable | BindingMismatch | GenerationFailed
  datatype Answer = Answer(patch: Option<K.Patch>, usage: Usage) | NoAnswer(error: GenerationError)
  datatype CommitError = KnowledgeConflict | KnowledgeUnavailable | KnowledgeInvalid

  datatype WikiError = StoreFailed(error: StoreError) | WorkflowFailed | MissingReceipt
  datatype RunReport = RunReport(events: seq<WikiEvent>, receipt: Receipt)

  function GuardCode(error: K.GuardError): string {
    match error
    case InvalidPatch => "invalid_patch"
    case WrongJob => "wrong_job"
    case UnknownSource => "unknown_source"
    case SourceHashMismatch => "source_hash_mismatch"
    case DuplicatePage => "duplicate_page"
    case DuplicateTarget => "duplicate_target"
    case StaleHash => "stale_hash"
    case CurrentTruthConflict => "current_truth_conflict"
    case InvalidSupersession => "invalid_supersession"
    case SensitiveContent => "sensitive_content"
    case InjectionContent => "injection_content"
    case OversizedPatch => "oversized_patch"
  }

  function CommitCode(error: CommitError): string {
    match error
    case KnowledgeConflict => "knowledge_conflict"
    case KnowledgeUnavailable => "knowledge_unavailable"
    case KnowledgeInvalid => "knowledge_invalid"
  }

  function AnswerCode(error: GenerationError): string {
    match error
    case ModelUnavailable => "model_unavailable"
    case BindingMismatch => "model_binding_mismatch"
    case GenerationFailed => "generation_failed"
  }

  function StoredInput(g: Generation): Input
    requires !g.Started?
  {
    match g
    case Accepted(_, _, patch, usage) => GeneratedPatch(patch, usage)
    case RejectedSchema(_, _, code, usage) => SchemaRejected(code, usage)
    case RejectedUnsafe(_, _, code, usage) => UnsafeRejected(code, usage)
    case Unavailable(_, _, code) => GenerationUnavailable(code)
  }

  /** An input whose codes the workflow takes, and whose patch is for this job. */
  predicate Honest(input: Input, jobId: int) {
    match input
    case GeneratedPatch(patch, _) => patch.jobId == jobId
    case SchemaRejected(code, _) => ValidCode(code)
    case UnsafeRejected(code, _) => ValidCode(code)
    case SemanticRejected(code) => ValidCode(code)
    case GenerationUnavailable(code) => ValidCode(code)
    case CommitPending(code) => ValidCode(code)
    case _ => true
  }

  /** Every outcome in the log is one the workflow takes, as those are that this program writes. */
  ghost predicate HonestLog(log: seq<LogRecord>, jobId: int) {
    forall k :: 0 <= k < |log| && log[k].GenerationRecord? && !log[k].generation.Started? ==>
      Honest(StoredInput(log[k].generation), jobId)
  }

  lemma PatchCodesValid(error: K.GuardError)
    requires error in {K.InvalidPatch, K.WrongJob, K.UnknownSource}
    ensures ValidCode(GuardCode(error))
  {
  }

  lemma SourceCodesValid(error: K.GuardError)
    requires error in {K.SourceHashMismatch, K.DuplicatePage, K.DuplicateTarget}
    ensures ValidCode(GuardCode(error))
  {
  }

  lemma TruthCodesValid(error: K.GuardError)
    requires error in {K.StaleHash, K.CurrentTruthConflict, K.InvalidSupersession}
    ensures ValidCode(GuardCode(error))
  {
  }

  lemma ContentCodesValid(error: K.GuardError)
    requires error in {K.SensitiveContent, K.InjectionContent, K.OversizedPatch}
    ensures ValidCode(GuardCode(error))
  {
  }

  lemma GuardCodesValid(error: K.GuardError)
    ensures ValidCode(GuardCode(error))
  {
    hide ValidCode, GuardCode;
    if error in {K.InvalidPatch, K.WrongJob, K.UnknownSource} {
      PatchCodesValid(error);
    } else if error in {K.SourceHashMismatch, K.DuplicatePage, K.DuplicateTarget} {
      SourceCodesValid(error);
    } else if error in {K.StaleHash, K.CurrentTruthConflict, K.InvalidSupersession} {
      TruthCodesValid(error);
    } else {
      ContentCodesValid(error);
    }
  }

  lemma CommitCodesValid(error: CommitError)
    ensures ValidCode(CommitCode(error))
  {
  }

  lemma AnswerCodesValid(error: GenerationError)
    ensures ValidCode(AnswerCode(error))
  {
  }

  lemma OutcomeCodesValid()
    ensures ValidCode("schema_invalid") && ValidCode("generation_outcome_unknown")
  {
  }

  ghost predicate WellFormed(patch: K.Patch) {
    && 1 <= |patch.operations| <= K.MAX_OPERATIONS
    && (forall i :: 0 <= i < |patch.operations| ==> patch.operations[i].Valid())
    && (forall i, j :: 0 <= i < j < |patch.operations| ==> patch.operations[i].Id() != patch.operations[j].Id())
  }

  /** The outcome an answer of the model deserves; a bad patch is named by the first thing wrong with it. */
  ghost predicate Judged(answer: Answer, attempt: nat, binding: ModelBinding, context: K.Context, g: Generation) {
    match answer
    case NoAnswer(error) => g == Unavailable(attempt, binding, AnswerCode(error))
    case Answer(patch, usage) =>
      if patch.None? || !WellFormed(patch.value) then g == RejectedSchema(attempt, binding, "schema_invalid", usage)
      else if K.Accepted(patch.value, context) then g == Accepted(attempt, binding, patch.value, usage)
      else
        exists error ::
          K.RefusedFor(error, patch.value, context) && g == RejectedUnsafe(attempt, binding, GuardCode(error), usage)
  }

  /** The receipt can still change. */
  predicate ReceiptOpen(log: seq<LogRecord>) {
    var receipt := LatestReceipt(log);
    receipt.None? || receipt.value.outcome == Pending
  }

  predicate AnswersGenerate(input: Input) {
    input.GeneratedPatch? || input.SchemaRejected? || input.UnsafeRejected? || input.GenerationUnavailable?
  }

  type Call = (nat, ModelBinding)

  // ---------------------------------------------------------------- the queue

  predicate Quiet(e: Effect) { e.PersistEvent? || e.PublishEvent? || e.PersistReceipt? }

  /** The effect that the workflow's state is waiting for. */
  predicate Awaited(e: Effect, f: Flow) {
    match f.state
    case Generating => 1 <= f.attempts <= 2 && e == Generate(Request(f.binding, f.attempts == 2))
    case Validating => f.patch.Some? && e == Validate(f.patch.value)
    case Committing => f.patch.Some? && f.patchHash.Some? && e == Commit(f.patch.value, f.patchHash.value)
    case NoOp | Failed | Synthesized | Pending =>
      e.PublishReceipt? && e.receipt.outcome == f.state && e.receipt.binding == f.binding
      && e.receipt.patchHash == f.patchHash
    case _ => false
  }

  /** Events and a receipt to persist, then the one effect the state waits for. */
  predicate Leads(queue: seq<Effect>, f: Flow) {
    && queue != [] && Awaited(queue[|queue| - 1], f)
    && forall i :: 0 <= i < |queue| - 1 ==>
         Quiet(queue[i]) && (queue[i].PersistReceipt? ==>
                               i == |queue| - 2 && queue[|queue| - 1] == PublishReceipt(queue[i].receipt))
  }

  /** How far the workflow still can go: generation, repair, validation, commit, end. */
  function Rank(f: Flow): nat {
    match f.state
    case Generating => if f.attempts <= 1 then 5 else 4
    case Validating => 3
    case Committing => 2
    case _ => 1
  }

  predicate Moves(f: Flow, input: Input) {
    match f.state
    case EvaluationPending => input.Evaluated?
    case Generating => AnswersGenerate(input)
    case Validating => input.PatchValidated? || input.SemanticRejected?
    case Committing => input.Committed? || input.CommitPending?
    case Pending => input.Rebind?
    case _ => false
  }

  /** What follows an input the driver feeds in: the queue leads to the next state, and the next state
      is nearer the end. */
  ghost predicate NextFlow(f: Flow, input: Input, g: Flow, effects: seq<Effect>) {
    && Leads(effects, g) && g.jobId == f.jobId
    && (if input.Rebind? then g.binding == input.binding else g.binding == f.binding)
    && (!input.Rebind? && !input.Evaluated? ==> Rank(g) < Rank(f))
    && (g.state == Generating ==> input.Rebind? || input.Evaluated? || f.state == Generating)
    && (input.Rebind? ==> f.state == Pending && g.state == Generating)
    && (g.state == Generating ==> g.attempts == if f.state == Generating then 2 else 1)
    && (f.state == Generating && g.state == Generating ==> f.attempts == 1)
    && (g.state != Generating ==> g.attempts == f.attempts)
    && (g.state == Committing ==> input.PatchValidated? && g.patch == f.patch && g.patchHash == Some(input.patchHash))
    && (g.state == Synthesized ==>
          input.Committed? && f.state == Committing && g.patch == f.patch && g.patchHash == f.patchHash)
  }

  lemma GenerationLeads(f: Flow, input: Input)
    requires FlowStep(f, input).Ok? && f.state == Generating && AnswersGenerate(input) && 1 <= f.attempts <= 2
    ensures NextFlow(f, input, FlowStep(f, input).value.0, FlowStep(f, input).value.1)
  {
    hide ValidCode, CodeText, R.MergeUsage;
  }

  lemma EvaluationLeads(f: Flow, input: Input)
    requires FlowStep(f, input).Ok? && f.state == EvaluationPending && input.Evaluated?
    ensures NextFlow(f, input, FlowStep(f, input).value.0, FlowStep(f, input).value.1)
  {
    hide ValidCode, CodeText, R.MergeUsage;
  }

  lemma StepLeads(f: Flow, input: Input)
    requires FlowStep(f, input).Ok? && Moves(f, input) && (f.state == Generating ==> 1 <= f.attempts <= 2)
    ensures NextFlow(f, input, FlowStep(f, input).value.0, FlowStep(f, input).value.1)
  {
    hide ValidCode, CodeText, R.MergeUsage, AfterEvaluation, AfterSchemaRejection;
    if f.state == Generating {
      GenerationLeads(f, input);
    } else if f.state == EvaluationPending {
      EvaluationLeads(f, input);
    } else {
      assert f.state in {Validating, Committing, Pending};
    }
  }

  /** An honest input is never refused. */
  lemma HonestIsTaken(f: Flow, input: Input)
    requires Moves(f, input) && Honest(input, f.jobId) && (f.state == Validating ==> f.patch.Some?)
    ensures FlowStep(f, input).Ok?
  {
    hide ValidCode, R.MergeUsage, CodeText;
    FixedCodesValid();
    if input.Evaluated? {
      CodeTextValid(input.decision.code);
    }
  }

  predicate Rebindable(f: Flow, rebind: Option<ModelBinding>) {
    rebind.Some? && rebind.value != f.binding
  }

  lemma {:induction false} NoFirstOutcome(log: seq<LogRecord>, attempt: nat, binding: ModelBinding)
    requires forall k :: 0 <= k < |log| && log[k].GenerationRecord? && !log[k].generation.Started? ==>
               log[k].generation.attempt != attempt || log[k].generation.binding != binding
    ensures FirstOutcome(log, attempt, binding).None?
  {
    if log != [] {
      NoFirstOutcome(log[1..], attempt, binding);
    }
  }

  lemma NoOutcomeYet(log: seq<LogRecord>, attempt: nat, binding: ModelBinding)
    requires LoggedOutcome(log, attempt, binding).None?
    ensures FirstOutcome(log, attempt, binding).None?
    ensures LoggedOutcome(log + [GenerationRecord(Started(attempt, binding))], attempt, binding).None?
    ensures forall g :: GenerationRecord(g) in log && !g.Started? ==> g.attempt != attempt || g.binding != binding
  {
    NoFirstOutcome(log, attempt, binding);
    assert (log + [GenerationRecord(Started(attempt, binding))])[..|log|] == log;
  }

  // ---------------------------------------------------------------- what is written

  /** One write of a run. */
  datatype Op = EventOp(event: WikiEvent) | GenerationOp(generation: Generation) | ReceiptOp(receipt: Receipt)

  function RecordOf(op: Op): LogRecord {
    match op
    case EventOp(event) => EventRecord(event)
    case GenerationOp(g) => GenerationRecord(g)
    case ReceiptOp(receipt) => ReceiptRecord(receipt)
  }

  function Do(jobId: int, fits: Fitting, s: Held, op: Op): Written {
    match op
    case EventOp(event) => AppendStep(fits, s, EventRecord(event))
    case GenerationOp(g) => GenerationStep(jobId, fits, s, g)
    case ReceiptOp(receipt) => ReceiptStep(fits, s, receipt)
  }

  /** Writes one after the other, up to the first that fails. */
  function DoAll(jobId: int, fits: Fitting, s: Held, ops: seq<Op>): Written
    decreases ops
  {
    if ops == [] then (s, Ok(())) else
    var (t, r) := Do(jobId, fits, s, ops[0]);
    if r.Err? then (t, r) else DoAll(jobId, fits, t, ops[1..])
  }

  /** The first receipt that comes to be written. */
  function Reached(jobId: int, fits: Fitting, s: Held, ops: seq<Op>): Option<Receipt>
    decreases ops
  {
    if ops == [] then None
    else if ops[0].ReceiptOp? then Some(ops[0].receipt)
    else
      var (t, r) := Do(jobId, fits, s, ops[0]);
      if r.Err? then None else Reached(jobId, fits, t, ops[1..])
  }

  function OpsOf(e: Effect): seq<Op> {
    match e
    case PersistEvent(event) => [EventOp(event)]
    case PersistReceipt(receipt) => [ReceiptOp(receipt)]
    case _ => []
  }

  function EffectOps(effects: seq<Effect>): seq<Op> {
    if effects == [] then [] else OpsOf(effects[0]) + EffectOps(effects[1..])
  }

  function EventsOf(effects: seq<Effect>): seq<WikiEvent> {
    if effects == [] then []
    else (if effects[0].PublishEvent? then [effects[0].event] else []) + EventsOf(effects[1..])
  }

  function OutcomeOf(attempt: nat, binding: ModelBinding, input: Input): Generation
    requires AnswersGenerate(input)
  {
    match input
    case GeneratedPatch(patch, usage) => Accepted(attempt, binding, patch, usage)
    case SchemaRejected(code, usage) => RejectedSchema(attempt, binding, code, usage)
    case UnsafeRejected(code, usage) => RejectedUnsafe(attempt, binding, code, usage)
    case GenerationUnavailable(code) => Unavailable(attempt, binding, code)
  }

  /** What getting the answer writes: nothing if it is logged, the loss of a call that was started, or
      the start of a call and its outcome. */
  function GenerationOps(log: seq<LogRecord>, attempt: nat, binding: ModelBinding, input: Input): seq<Op>
    requires AnswersGenerate(input)
  {
    var outcome := GenerationOp(OutcomeOf(attempt, binding, input));
    if LoggedOutcome(log, attempt, binding).Some? then []
    else if WasStarted(log, attempt, binding) then [outcome]
    else [GenerationOp(Started(attempt, binding)), outcome]
  }

  function EntryOps(log: seq<LogRecord>, f: Flow, input: Input): seq<Op> {
    if f.state == Generating && AnswersGenerate(input) then GenerationOps(log, f.attempts, f.binding, input) else []
  }

  // ---------------------------------------------------------------- a run

  /** A run as the outside world makes it. */
  datatype World = World(
    jobId: int, binding: ModelBinding, fits: Fitting, decision: Durability, context: K.Context,
    rebind: Option<ModelBinding>, model: Call -> Answer, commit: K.Patch -> Result<TransactionId, CommitError>)

  /** Where a run stands: the workflow, the disk, how the last write went, the first receipt it came to
      write, the last it published, and the events it published. */
  datatype Course = Course(
    flow: Flow, held: Held, reply: Result<(), WikiError>, aimed: Option<Receipt>, receipt: Option<Receipt>,
    events: seq<WikiEvent>)

  function Opening(w: World, start: Held): Course {
    Course(Flow(w.jobId, w.binding, EvaluationPending, 0, None, None, None), start, Ok(()), None, None, [])
  }

  /** The answer to a call: what is logged, the loss of what was started, or what the model gives. */
  ghost predicate GenerationAnswer(log: seq<LogRecord>, call: Call, context: K.Context, model: Call -> Answer,
                                   input: Input) {
    var stored := LoggedOutcome(log, call.0, call.1);
    if stored.Some? then input == StoredInput(stored.value)
    else if WasStarted(log, call.0, call.1) then input == GenerationUnavailable("generation_outcome_unknown")
    else
      exists g :: Judged(model(call), call.0, call.1, context, g) && g.attempt == call.0 && g.binding == call.1
                  && !g.Started? && input == StoredInput(g)
  }

  /** What the run feeds its workflow next. */
  ghost predicate Answers(w: World, log: seq<LogRecord>, f: Flow, input: Input) {
    match f.state
    case EvaluationPending => input == Evaluated(w.decision)
    case Generating =>
      && AnswersGenerate(input)
      && GenerationAnswer(log, (f.attempts, f.binding), w.context, w.model, input)
    case Validating =>
      && f.patch.Some?
      && if K.Accepted(f.patch.value, w.context) then input == PatchValidated(f.patch.value)
         else
           exists error :: K.RefusedFor(error, f.patch.value, w.context) && input == SemanticRejected(GuardCode(error))
    case Committing =>
      && f.patch.Some?
      && var done := w.commit(f.patch.value);
      input == if done.Ok? then Committed(done.value) else CommitPending(CommitCode(done.error))
    case Pending => Rebindable(f, w.rebind) && input == Rebind(w.rebind.value)
    case _ => false
  }

  /** Feeding one input: first what getting it writes, then what the workflow makes of it. */
  function Advance(w: World, c: Course, input: Input): Course {
    var (h, r) := DoAll(w.jobId, w.fits, c.held, EntryOps(c.held.log, c.flow, input));
    if r.Err? then c.(held := h, reply := Err(StoreFailed(r.error))) else
    var step := FlowStep(c.flow, input);
    if step.Err? then c.(held := h, reply := Err(WorkflowFailed)) else
    Arrive(w, c, h, step.value.0, step.value.1)
  }

  /** What the workflow emitted is carried out. */
  function Arrive(w: World, c: Course, h: Held, g: Flow, effects: seq<Effect>): Course {
    var (k, r) := DoAll(w.jobId, w.fits, h, EffectOps(effects));
    Course(g, k, if r.Ok? then Ok(()) else Err(StoreFailed(r.error)),
           if c.aimed.Some? then c.aimed else Reached(w.jobId, w.fits, h, EffectOps(effects)),
           if effects != [] && effects[|effects| - 1].PublishReceipt? then Some(effects[|effects| - 1].receipt)
           else c.receipt,
           c.events + EventsOf(effects))
  }

  function CourseOf(w: World, start: Held, inputs: seq<Input>): Course {
    if inputs == [] then Opening(w, start) else
    var c := CourseOf(w, start, inputs[..|inputs| - 1]);
    if c.reply.Err? then c else Advance(w, c, inputs[|inputs| - 1])
  }

  /** Each input is what the run feeds its workflow at that point. */
  ghost predicate Legal(w: World, start: Held, inputs: seq<Input>) {
    inputs == [] ||
    var init := inputs[..|inputs| - 1];
    var c := CourseOf(w, start, init);
    Legal(w, start, init) && c.reply.Ok? && Answers(w, c.held.log, c.flow, inputs[|inputs| - 1])
  }

  /** The workflow has come to its end, and no other model is to try. */
  predicate Finishes(f: Flow, rebind: Option<ModelBinding>) {
    f.state in {NoOp, WorkflowState.Failed, Synthesized} || (f.state == Pending && !Rebindable(f, rebind))
  }

  // ---------------------------------------------------------------- each step

  /** The workflow is where its fields make sense. */
  predicate FlowFine(f: Flow, jobId: int) {
    && f.jobId == jobId
    && (f.state == Generating ==> 1 <= f.attempts <= 2)
    && (f.state in {Validating, Committing} ==> f.patch.Some?)
  }

  lemma AnswersMove(w: World, log: seq<LogRecord>, f: Flow, input: Input)
    requires Answers(w, log, f, input)
    ensures Moves(f, input)
  {
    hide GenerationAnswer, K.Accepted;
  }

  lemma StepIsFine(f: Flow, input: Input)
    requires FlowFine(f, f.jobId) && Moves(f, input) && FlowStep(f, input).Ok?
    ensures FlowFine(FlowStep(f, input).value.0, f.jobId)
  {
    hide FlowStep, Moves;
    StepLeads(f, input);
  }

  /** A run's flow makes sense throughout. */
  lemma {:induction false} CourseIsFine(w: World, start: Held, inputs: seq<Input>)
    requires Legal(w, start, inputs)
    ensures FlowFine(CourseOf(w, start, inputs).flow, w.jobId)
  {
    if inputs != [] {
      var init, input := inputs[..|inputs| - 1], inputs[|inputs| - 1];
      CourseIsFine(w, start, init);
      var c := CourseOf(w, start, init);
      AnswersMove(w, c.held.log, c.flow, input);
      hide FlowStep, Moves, Answers, DoAll, FlowFine;
      if FlowStep(c.flow, input).Ok? {
        FineJob(c.flow, w.jobId);
        StepIsFine(c.flow, input);
      }
    }
  }

  lemma FineJob(f: Flow, jobId: int)
    requires FlowFine(f, jobId)
    ensures f.jobId == jobId
  {
  }

  predicate Ended(f: Flow) { f.state in {NoOp, WorkflowState.Failed, Synthesized, Pending} }

  lemma ObservedOps(f: Flow, code: string, usage: Option<Usage>, tail: seq<Effect>)
    ensures var event := WikiEvent(f.state, code, if usage.Some? then Some((f.binding, usage.value)) else None);
            EffectOps(Observed(f, code, usage) + tail) == [EventOp(event)] + EffectOps(tail)
  {
    var event := WikiEvent(f.state, code, if usage.Some? then Some((f.binding, usage.value)) else None);
    var all := Observed(f, code, usage) + tail;
    assert all[0] == PersistEvent(event) && all[1..] == [PublishEvent(event)] + tail;
    assert all[1..][0] == PublishEvent(event) && all[1..][1..] == tail;
    assert EffectOps(all[1..]) == [] + EffectOps(tail);
  }

  lemma LoudOps(e: Effect)
    requires !Quiet(e)
    ensures EffectOps([e]) == []
  {
    assert [e][1..] == [];
  }

  /** What a step writes: one event or two, or an event and the receipt of the end. */
  predicate OpsOfStep(input: Input, g: Flow, effects: seq<Effect>) {
    var ops := EffectOps(effects);
    if Ended(g) then
      && |ops| == 2 && ops[0].EventOp? && ops[1].ReceiptOp? && ops[1].receipt.outcome == g.state
      && effects != [] && effects[|effects| - 1] == PublishReceipt(ops[1].receipt)
    else
      && (forall i :: 0 <= i < |ops| ==> ops[i].EventOp?) && |ops| == (if input.Evaluated? then 2 else 1)
      && effects != [] && !effects[|effects| - 1].PublishReceipt?
  }

  lemma EndOps(f: Flow, state: WorkflowState, code: string, usage: Option<Usage>, transaction: Option<TransactionId>,
               input: Input)
    requires EndIn(f, state, code, usage, transaction).Ok?
             && state in {NoOp, WorkflowState.Failed, Synthesized, Pending}
    ensures OpsOfStep(input, EndIn(f, state, code, usage, transaction).value.0,
                      EndIn(f, state, code, usage, transaction).value.1)
  {
    hide ValidCode;
    var g := f.(state := state);
    var tail := ReceiptFor(g, state, code, transaction);
    ObservedOps(g, code, usage, tail);
    assert tail[1..] == [tail[1]];
    LoudOps(tail[1]);
    assert EffectOps(tail) == [ReceiptOp(tail[0].receipt)] + EffectOps(tail[1..]);
  }

  lemma MidOps(g: Flow, code: string, usage: Option<Usage>, loud: Effect, input: Input)
    requires !Quiet(loud) && !loud.PublishReceipt? && !Ended(g) && !input.Evaluated?
    ensures OpsOfStep(input, g, Observed(g, code, usage) + [loud])
  {
    ObservedOps(g, code, usage, [loud]);
    LoudOps(loud);
  }

  lemma StepOps(f: Flow, input: Input)
    requires FlowStep(f, input).Ok? && Moves(f, input)
    ensures OpsOfStep(input, FlowStep(f, input).value.0, FlowStep(f, input).value.1)
  {
    hide ValidCode, R.MergeUsage, CodeText, OpsOfStep;
    var (g, effects) := FlowStep(f, input).value;
    match input
    case Evaluated(Passing(code)) => EndOps(f, NoOp, CodeText(code), None, None, input);
    case Evaluated(Durable(code)) => DurableOps(f, code);
    case GeneratedPatch(patch, usage) => MidOps(g, "patch_received", g.usage, Validate(patch), input);
    case SchemaRejected(code, usage) =>
      if f.attempts >= 2 {
        EndOps(WithUsage(f, usage), WorkflowState.Failed, "schema_repair_exhausted", WithUsage(f, usage).usage, None,
               input);
      } else {
        MidOps(g, "schema_repair_started", g.usage, Generate(Request(f.binding, true)), input);
      }
    case UnsafeRejected(code, usage) =>
      EndOps(WithUsage(f, usage), WorkflowState.Failed, code, WithUsage(f, usage).usage, None, input);
    case GenerationUnavailable(code) => EndOps(f, Pending, code, f.usage, None, input);
    case SemanticRejected(code) => EndOps(f, WorkflowState.Failed, code, f.usage, None, input);
    case PatchValidated(hash) => MidOps(g, "patch_validated", g.usage, Commit(f.patch.value, hash), input);
    case Committed(transaction) => EndOps(f, Synthesized, "synthesized", f.usage, Some(transaction), input);
    case CommitPending(code) => EndOps(f, Pending, code, f.usage, None, input);
    case Rebind(binding) => MidOps(g, "explicit_model_rebind", None, Generate(Request(binding, false)), input);
    case Recover =>
  }

  lemma DurableOps(f: Flow, code: DurabilityCode)
    requires f.state == EvaluationPending
    ensures var (g, effects) := AfterEvaluation(f, Durable(code)).value;
            OpsOfStep(Evaluated(Durable(code)), g, effects)
  {
    hide CodeText;
    var (g, effects) := AfterEvaluation(f, Durable(code)).value;
    var loud := Generate(Request(f.binding, false));
    var second := Observed(g, "generation_started", None) + [loud];
    ObservedOps(f.(state := SynthesisPending), CodeText(code), None, second);
    ObservedOps(g, "generation_started", None, [loud]);
    LoudOps(loud);
    assert effects == Observed(f.(state := SynthesisPending), CodeText(code), None) + second;
  }

  // ---------------------------------------------------------------- how much is written

  /** How many atomic steps a write takes: a receipt goes to its file and to the log. */
  function Cost(op: Op): nat { if op.ReceiptOp? then 2 else 1 }

  function CostOf(ops: seq<Op>): nat {
    if ops == [] then 0 else Cost(ops[0]) + CostOf(ops[1..])
  }

  /** How many steps can still follow from a state. */
  function Work(f: Flow, rebindable: bool): nat {
    var again := if rebindable then 11 else 0;
    match f.state
    case EvaluationPending => 12 + again
    case Generating => (if f.attempts <= 1 then 10 else 7) + again
    case Validating => 4 + again
    case Committing => 3 + again
    case Pending => again
    case _ => 0
  }

  const MAX_STEPS: nat := 23

  lemma {:induction false} DoAllCosts(jobId: int, fits: Fitting, s: Held, ops: seq<Op>)
    ensures var (t, r) := DoAll(jobId, fits, s, ops);
            && t.power <= s.power <= t.power + CostOf(ops)
            && (r == Err(PowerLost) ==> s.power < CostOf(ops))
    decreases ops
  {
    if ops != [] {
      var (t, r) := Do(jobId, fits, s, ops[0]);
      if r.Ok? {
        DoAllCosts(jobId, fits, t, ops[1..]);
      }
    }
  }

  lemma CostIs(ops: seq<Op>)
    requires |ops| <= 2
    ensures CostOf(ops) == (if |ops| > 0 then Cost(ops[0]) else 0) + (if |ops| > 1 then Cost(ops[1]) else 0)
  {
    if |ops| > 0 {
      assert CostOf(ops[1..]) == if |ops| > 1 then Cost(ops[1]) else 0 by {
        if |ops| > 1 {
          assert ops[1..][1..] == [];
        }
      }
    }
  }

  /** Every step of the workflow leaves less to write than there was, what getting its input writes
      included. */
  lemma StepCosts(f: Flow, input: Input, rebind: Option<ModelBinding>)
    requires FlowStep(f, input).Ok? && Moves(f, input) && FlowFine(f, f.jobId)
    requires input.Rebind? ==> rebind == Some(input.binding) && Rebindable(f, rebind)
    ensures var (g, effects) := FlowStep(f, input).value;
            (if f.state == Generating then 2 else 0) + CostOf(EffectOps(effects)) + Work(g, Rebindable(g, rebind))
            <= Work(f, Rebindable(f, rebind))
  {
    StepOps(f, input);
    var (g, effects) := FlowStep(f, input).value;
    CostIs(EffectOps(effects));
    WorkFalls(f, input, rebind);
  }

  lemma WorkFalls(f: Flow, input: Input, rebind: Option<ModelBinding>)
    requires FlowStep(f, input).Ok? && Moves(f, input) && FlowFine(f, f.jobId)
    requires input.Rebind? ==> rebind == Some(input.binding) && Rebindable(f, rebind)
    ensures var g := FlowStep(f, input).value.0;
            (if f.state == Generating then 2 else 0) + (if Ended(g) then 3 else if input.Evaluated? then 2 else 1)
            + Work(g, Rebindable(g, rebind)) <= Work(f, Rebindable(f, rebind))
  {
    hide ValidCode, CodeText, R.MergeUsage, EffectOps;
  }

  lemma EntryCosts(log: seq<LogRecord>, f: Flow, input: Input)
    ensures CostOf(EntryOps(log, f, input)) <= if f.state == Generating then 2 else 0
  {
    CostIs(EntryOps(log, f, input));
  }

  /** Over any run the power spent and the work left stay within 23 steps. */
  lemma {:induction false} CourseCosts(w: World, start: Held, inputs: seq<Input>)
    requires Legal(w, start, inputs)
    ensures var c := CourseOf(w, start, inputs);
            && (c.reply.Ok? ==> start.power + Work(c.flow, Rebindable(c.flow, w.rebind)) <= c.held.power + MAX_STEPS)
            && (c.reply == Err(StoreFailed(PowerLost)) ==> start.power < MAX_STEPS)
  {
    hide DoAll, EffectOps, EntryOps, FlowStep, Answers, Work, CostOf, FlowFine, Moves;
    if inputs == [] {
      WorkAtFirst(Opening(w, start).flow, w.rebind);
    } else {
      var init, input := inputs[..|inputs| - 1], inputs[|inputs| - 1];
      CourseCosts(w, start, init);
      CourseIsFine(w, start, init);
      var c := CourseOf(w, start, init);
      AnswersMove(w, c.held.log, c.flow, input);
      AnswersRebind(w, c.held.log, c.flow, input);
      FineJob(c.flow, w.jobId);
      var ops := EntryOps(c.held.log, c.flow, input);
      DoAllCosts(w.jobId, w.fits, c.held, ops);
      EntryCosts(c.held.log, c.flow, input);
      GeneratingIsWork(c.flow, Rebindable(c.flow, w.rebind));
      if FlowStep(c.flow, input).Ok? {
        StepCosts(c.flow, input, w.rebind);
        DoAllCosts(w.jobId, w.fits, DoAll(w.jobId, w.fits, c.held, ops).0, EffectOps(FlowStep(c.flow, input).value.1));
      }
    }
  }

  lemma WorkAtFirst(f: Flow, rebind: Option<ModelBinding>)
    requires f.state == EvaluationPending
    ensures Work(f, Rebindable(f, rebind)) <= MAX_STEPS
  {
  }

  lemma GeneratingIsWork(f: Flow, rebindable: bool)
    ensures f.state == Generating ==> Work(f, rebindable) >= 7
  {
  }

  lemma AnswersRebind(w: World, log: seq<LogRecord>, f: Flow, input: Input)
    requires Answers(w, log, f, input)
    ensures input.Rebind? ==> w.rebind == Some(input.binding) && Rebindable(f, w.rebind)
  {
    hide GenerationAnswer, K.Accepted;
  }

  // ---------------------------------------------------------------- why a run may fail

  lemma StaysHonest(log: seq<LogRecord>, record: LogRecord, jobId: int)
    requires HonestLog(log, jobId)
    requires record.GenerationRecord? && !record.generation.Started? ==> Honest(StoredInput(record.generation), jobId)
    ensures HonestLog(log + [record], jobId)
  {
  }

  ghost predicate HonestOp(op: Op, jobId: int) {
    op.GenerationOp? && !op.generation.Started? ==> Honest(StoredInput(op.generation), jobId)
  }

  ghost predicate AllHonest(ops: seq<Op>, jobId: int) {
    forall i :: 0 <= i < |ops| ==> HonestOp(ops[i], jobId)
  }

  lemma DoIsHonest(jobId: int, fits: Fitting, s: Held, op: Op)
    requires HonestLog(s.log, jobId) && HonestOp(op, jobId)
    ensures HonestLog(Do(jobId, fits, s, op).0.log, jobId)
  {
    hide Honest, HonestLog;
    StaysHonest(s.log, RecordOf(op), jobId);
  }

  lemma {:induction false} DoAllIsHonest(jobId: int, fits: Fitting, s: Held, ops: seq<Op>)
    requires HonestLog(s.log, jobId) && AllHonest(ops, jobId)
    ensures HonestLog(DoAll(jobId, fits, s, ops).0.log, jobId)
    decreases ops
  {
    hide HonestLog, HonestOp, Do;
    if ops != [] {
      DoIsHonest(jobId, fits, s, ops[0]);
      var (t, r) := Do(jobId, fits, s, ops[0]);
      if r.Ok? {
        DoAllIsHonest(jobId, fits, t, ops[1..]);
      }
    }
  }

  lemma JudgedIsHonest(answer: Answer, call: Call, context: K.Context, g: Generation)
    requires Judged(answer, call.0, call.1, context, g) && !g.Started?
    ensures Honest(StoredInput(g), context.jobId)
  {
    hide ValidCode, GuardCode, AnswerCode, WellFormed, K.RefusedFor;
    OutcomeCodesValid();
    match answer
    case NoAnswer(error) => AnswerCodesValid(error);
    case Answer(patch, usage) =>
      if g.RejectedUnsafe? {
        var error :| K.RefusedFor(error, patch.value, context)
                     && g == RejectedUnsafe(call.0, call.1, GuardCode(error), usage);
        GuardCodesValid(error);
      }
  }

  lemma LoggedIsHonest(log: seq<LogRecord>, call: Call, jobId: int)
    requires HonestLog(log, jobId) && LoggedOutcome(log, call.0, call.1).Some?
    ensures Honest(StoredInput(LoggedOutcome(log, call.0, call.1).value), jobId)
  {
    hide Honest;
    var g := LoggedOutcome(log, call.0, call.1).value;
    var k :| 0 <= k < |log| && log[k] == GenerationRecord(g);
  }

  /** On an honest log a run is only ever fed honest inputs. */
  lemma AnswersAreHonest(w: World, log: seq<LogRecord>, f: Flow, input: Input)
    requires Answers(w, log, f, input) && HonestLog(log, w.jobId) && w.context.jobId == w.jobId
    ensures Honest(input, w.jobId)
  {
    hide ValidCode, GuardCode, CommitCode, K.RefusedFor, HonestLog, Judged, LoggedOutcome, WasStarted;
    OutcomeCodesValid();
    if f.state == Generating {
      var call := (f.attempts, f.binding);
      if LoggedOutcome(log, call.0, call.1).Some? {
        LoggedIsHonest(log, call, w.jobId);
      } else if !WasStarted(log, call.0, call.1) {
        var g :| Judged(w.model(call), call.0, call.1, w.context, g) && !g.Started? && input == StoredInput(g);
        JudgedIsHonest(w.model(call), call, w.context, g);
      }
    } else if input.SemanticRejected? {
      var error :| K.RefusedFor(error, f.patch.value, w.context) && input == SemanticRejected(GuardCode(error));
      GuardCodesValid(error);
    } else if input.CommitPending? {
      CommitCodesValid(w.commit(f.patch.value).error);
    }
  }

  lemma OutcomeBack(attempt: nat, binding: ModelBinding, input: Input)
    requires AnswersGenerate(input)
    ensures var g := OutcomeOf(attempt, binding, input);
            !g.Started? && StoredInput(g) == input && g.attempt == attempt && g.binding == binding
  {
  }

  /** What a step writes is honest: events, receipts, and the outcome of an honest input. */
  lemma StepWritesHonestly(log: seq<LogRecord>, f: Flow, input: Input, jobId: int)
    requires Honest(input, jobId) && Moves(f, input)
    ensures AllHonest(EntryOps(log, f, input), jobId)
    ensures FlowStep(f, input).Ok? ==> AllHonest(EffectOps(FlowStep(f, input).value.1), jobId)
  {
    hide Honest, FlowStep;
    if AnswersGenerate(input) {
      OutcomeBack(f.attempts, f.binding, input);
    }
    if FlowStep(f, input).Ok? {
      StepOps(f, input);
    }
  }

  /** On an honest log the workflow refuses nothing, and the log stays honest. */
  lemma {:induction false} CourseIsHonest(w: World, start: Held, inputs: seq<Input>)
    requires Legal(w, start, inputs) && HonestLog(start.log, w.jobId) && w.context.jobId == w.jobId
    ensures var c := CourseOf(w, start, inputs);
            HonestLog(c.held.log, w.jobId) && (c.reply.Err? ==> c.reply.error.StoreFailed?)
  {
    hide DoAll, EffectOps, EntryOps, FlowStep, Answers, HonestLog, AllHonest, Moves, FlowFine, Honest;
    if inputs != [] {
      var init, input := inputs[..|inputs| - 1], inputs[|inputs| - 1];
      CourseIsHonest(w, start, init);
      CourseIsFine(w, start, init);
      var c := CourseOf(w, start, init);
      AnswersMove(w, c.held.log, c.flow, input);
      AnswersAreHonest(w, c.held.log, c.flow, input);
      StepWritesHonestly(c.held.log, c.flow, input, w.jobId);
      HonestFlow(c.flow, input, w.jobId);
      var ops := EntryOps(c.held.log, c.flow, input);
      DoAllIsHonest(w.jobId, w.fits, c.held, ops);
      var after := EffectOps(FlowStep(c.flow, input).value.1);
      DoAllIsHonest(w.jobId, w.fits, DoAll(w.jobId, w.fits, c.held, ops).0, after);
    }
  }

  lemma HonestFlow(f: Flow, input: Input, jobId: int)
    requires FlowFine(f, jobId) && Moves(f, input) && Honest(input, jobId)
    ensures FlowStep(f, input).Ok?
  {
    hide Honest, Moves, FlowStep;
    HonestIsTaken(f, input);
  }

  /** What one step of a run writes. */
  function StepWrites(w: World, c: Course, input: Input): seq<Op> {
    EntryOps(c.held.log, c.flow, input)
    + if FlowStep(c.flow, input).Ok? then EffectOps(FlowStep(c.flow, input).value.1) else []
  }

  /** The run writes this, or would if it got so far. */
  ghost predicate Writes(w: World, start: Held, inputs: seq<Input>, op: Op) {
    inputs != [] &&
    var init := inputs[..|inputs| - 1];
    Writes(w, start, init, op) || op in StepWrites(w, CourseOf(w, start, init), inputs[|inputs| - 1])
  }

  /** A write is refused because its record is new and too long for a line. */
  ghost predicate TooLong(fits: Fitting, s: Held, op: Op) { RecordOf(op) !in s.log && !fits(RecordOf(op)) }

  /** A generation that may be logged: of an attempt that there is, and for this job. */
  predicate Loggable(op: Op, jobId: int) {
    op.GenerationOp? ==>
      1 <= op.generation.attempt <= 2 && (op.generation.Accepted? ==> op.generation.patch.jobId == jobId)
  }

  lemma {:induction false} DoAllRefuses(jobId: int, fits: Fitting, s: Held, ops: seq<Op>) returns (op: Op)
    requires ops != [] && forall i :: 0 <= i < |ops| ==> Loggable(ops[i], jobId)
    ensures var (t, r) := DoAll(jobId, fits, s, ops);
            r == Err(RecoveryRequired) ==> op in ops && TooLong(fits, t, op)
    decreases ops
  {
    op := ops[0];
    var (t, r) := Do(jobId, fits, s, ops[0]);
    if r.Ok? && ops[1..] != [] {
      op := DoAllRefuses(jobId, fits, t, ops[1..]);
    }
  }

  lemma AnswersAreLoggable(w: World, log: seq<LogRecord>, f: Flow, input: Input)
    requires Honest(input, w.jobId) && FlowFine(f, w.jobId) && Moves(f, input)
    ensures forall i :: 0 <= i < |EntryOps(log, f, input)| ==> Loggable(EntryOps(log, f, input)[i], w.jobId)
    ensures FlowStep(f, input).Ok? ==>
              var ops := EffectOps(FlowStep(f, input).value.1);
              ops != [] && forall i :: 0 <= i < |ops| ==> Loggable(ops[i], w.jobId)
  {
    hide FlowStep;
    if FlowStep(f, input).Ok? {
      StepOps(f, input);
    }
  }

  /** A run that stops for want of room has met a record of its own that is too long. */
  lemma RefusalIsNamed(w: World, start: Held, inputs: seq<Input>) returns (op: Op)
    requires Legal(w, start, inputs) && HonestLog(start.log, w.jobId) && w.context.jobId == w.jobId
    requires CourseOf(w, start, inputs).reply == Err(StoreFailed(RecoveryRequired))
    ensures Writes(w, start, inputs, op) && TooLong(w.fits, CourseOf(w, start, inputs).held, op)
  {
    hide DoAll, EffectOps, EntryOps, FlowStep, Answers, HonestLog, Moves, FlowFine, Honest, Loggable, TooLong;
    var init, input := inputs[..|inputs| - 1], inputs[|inputs| - 1];
    CourseIsHonest(w, start, init);
    CourseIsFine(w, start, init);
    var c := CourseOf(w, start, init);
    AnswersMove(w, c.held.log, c.flow, input);
    AnswersAreHonest(w, c.held.log, c.flow, input);
    AnswersAreLoggable(w, c.held.log, c.flow, input);
    HonestFlow(c.flow, input, w.jobId);
    var ops := EntryOps(c.held.log, c.flow, input);
    var (h, r) := DoAll(w.jobId, w.fits, c.held, ops);
    if r.Err? {
      NothingToDo(w.jobId, w.fits, c.held);
      op := DoAllRefuses(w.jobId, w.fits, c.held, ops);
    } else {
      op := DoAllRefuses(w.jobId, w.fits, h, EffectOps(FlowStep(c.flow, input).value.1));
    }
    assert op in StepWrites(w, c, input);
  }

  lemma NothingToDo(jobId: int, fits: Fitting, s: Held)
    ensures DoAll(jobId, fits, s, []) == (s, Ok(()))
  {
  }

  // ---------------------------------------------------------------- the receipt file and the log

  /** A receipt file that the log knows nothing of: a crash came between the two. */
  predicate Orphaned(s: Held) { LatestReceipt(s.log).None? && s.file.Some? }

  /** The first receipt a run comes to write is not the one that lies there orphaned. */
  predicate Clash(start: Held, aimed: Option<Receipt>) {
    Orphaned(start) && aimed.Some? && aimed != start.file
  }

  /** Writes of events, and of generations that have no outcome yet, leave the receipts alone. */
  predicate Harmless(s: Held, op: Op) {
    && !op.ReceiptOp?
    && (op.GenerationOp? && !op.generation.Started? ==>
          LoggedOutcome(s.log, op.generation.attempt, op.generation.binding).None?)
  }

  lemma HarmlessDo(jobId: int, fits: Fitting, s: Held, op: Op)
    requires Harmless(s, op)
    ensures var (t, r) := Do(jobId, fits, s, op);
            r != Err(Conflict) && LatestReceipt(t.log) == LatestReceipt(s.log) && t.file == s.file
  {
    hide LatestReceipt, LoggedOutcome, FirstOutcome;
    KeepsReceipt(s.log, RecordOf(op));
    if op.GenerationOp? && !op.generation.Started? {
      NoOutcomeYet(s.log, op.generation.attempt, op.generation.binding);
    }
  }

  lemma KeepsReceipt(log: seq<LogRecord>, record: LogRecord)
    ensures LatestReceipt(log + [record]) == if record.ReceiptRecord? then Some(record.receipt) else LatestReceipt(log)
  {
    assert (log + [record])[..|log|] == log;
  }

  lemma {:induction false} KnownReceipt(log: seq<LogRecord>, receipt: Receipt)
    requires ReceiptRecord(receipt) in log
    ensures LatestReceipt(log).Some?
  {
    if !log[|log| - 1].ReceiptRecord? {
      KnownReceipt(log[..|log| - 1], receipt);
    }
  }

  /** Getting an answer leaves the receipts alone. */
  lemma EntryIsHarmless(w: World, s: Held, f: Flow, input: Input)
    requires FlowFine(f, w.jobId)
    ensures var ops := EntryOps(s.log, f, input);
            var (t, r) := DoAll(w.jobId, w.fits, s, ops);
            && r != Err(Conflict) && LatestReceipt(t.log) == LatestReceipt(s.log) && t.file == s.file
            && Reached(w.jobId, w.fits, s, ops).None?
  {
    hide LatestReceipt, LoggedOutcome, Harmless, Do;
    var ops := EntryOps(s.log, f, input);
    if ops != [] {
      OutcomeBack(f.attempts, f.binding, input);
      EntryFirst(s, f, input);
      HarmlessDo(w.jobId, w.fits, s, ops[0]);
      var (t, r) := Do(w.jobId, w.fits, s, ops[0]);
      assert ops[1..] == if |ops| == 2 then [ops[1]] else [];
      if |ops| == 2 && r.Ok? {
        EntrySecond(w, s, f, input);
        HarmlessDo(w.jobId, w.fits, t, ops[1]);
        DoOne(w.jobId, w.fits, t, ops[1]);
      }
    }
  }

  lemma EntryFirst(s: Held, f: Flow, input: Input)
    requires EntryOps(s.log, f, input) != []
    ensures Harmless(s, EntryOps(s.log, f, input)[0])
  {
  }

  lemma EntrySecond(w: World, s: Held, f: Flow, input: Input)
    requires |EntryOps(s.log, f, input)| == 2
    ensures Harmless(Do(w.jobId, w.fits, s, EntryOps(s.log, f, input)[0]).0, EntryOps(s.log, f, input)[1])
  {
    hide LoggedOutcome, FirstOutcome;
    NoOutcomeYet(s.log, f.attempts, f.binding);
    OutcomeBack(f.attempts, f.binding, input);
  }

  /** Events leave the receipts alone. */
  lemma {:induction false} EventsAreHarmless(jobId: int, fits: Fitting, s: Held, ops: seq<Op>)
    requires forall i :: 0 <= i < |ops| ==> ops[i].EventOp?
    ensures var (t, r) := DoAll(jobId, fits, s, ops);
            && r != Err(Conflict) && LatestReceipt(t.log) == LatestReceipt(s.log) && t.file == s.file
            && Reached(jobId, fits, s, ops).None?
    decreases ops
  {
    hide LatestReceipt;
    if ops != [] {
      HarmlessDo(jobId, fits, s, ops[0]);
      EventsAreHarmless(jobId, fits, Do(jobId, fits, s, ops[0]).0, ops[1..]);
    }
  }

  lemma ReceiptDo(fits: Fitting, s: Held, receipt: Receipt)
    requires ReceiptOpen(s.log)
    ensures var (t, r) := ReceiptStep(fits, s, receipt);
            && (r == Err(Conflict) <==> Clash(s, Some(receipt))) && (r == Err(Conflict) ==> t == s)
            && (r.Ok? ==> LatestReceipt(t.log).Some? && (receipt.outcome == Pending ==> ReceiptOpen(t.log)))
  {
    KeepsReceipt(s.log, ReceiptRecord(receipt));
    if ReceiptRecord(receipt) in s.log {
      KnownReceipt(s.log, receipt);
    }
    hide LatestReceipt;
  }

  /** An end writes its event, and then comes to its receipt. */
  lemma EndDo(jobId: int, fits: Fitting, s: Held, ops: seq<Op>)
    requires |ops| == 2 && ops[0].EventOp? && ops[1].ReceiptOp?
    ensures var (t, q) := Do(jobId, fits, s, ops[0]);
            if q.Err? then DoAll(jobId, fits, s, ops) == (t, q) && Reached(jobId, fits, s, ops).None?
            else
              && Reached(jobId, fits, s, ops) == Some(ops[1].receipt)
              && var (u, r) := ReceiptStep(fits, t, ops[1].receipt);
              DoAll(jobId, fits, s, ops) == (u, if r.Ok? then Ok(()) else r)
  {
    hide ReceiptStep, AppendStep;
    assert ops[1..] == [ops[1]];
    DoOne(jobId, fits, Do(jobId, fits, s, ops[0]).0, ops[1]);
  }

  lemma DoTwo(jobId: int, fits: Fitting, s: Held, a: Op, b: Op)
    ensures var (t, q) := Do(jobId, fits, s, a);
            DoAll(jobId, fits, s, [a, b])
            == if q.Err? then (t, q) else var (u, r) := Do(jobId, fits, t, b); (u, if r.Ok? then Ok(()) else r)
  {
    hide Do;
    assert [a, b][1..] == [b];
    DoOne(jobId, fits, Do(jobId, fits, s, a).0, b);
  }

  lemma SomeJudgement(answer: Answer, attempt: nat, binding: ModelBinding, context: K.Context) returns (g: Generation)
    ensures Judged(answer, attempt, binding, context, g) && !g.Started? && g.attempt == attempt && g.binding == binding
  {
    hide K.Accepted, K.RefusedFor, WellFormed, GuardCode, AnswerCode;
    match answer
    case NoAnswer(error) => g := Unavailable(attempt, binding, AnswerCode(error));
    case Answer(patch, usage) =>
      if patch.None? || !WellFormed(patch.value) {
        g := RejectedSchema(attempt, binding, "schema_invalid", usage);
      } else if K.Accepted(patch.value, context) {
        g := Accepted(attempt, binding, patch.value, usage);
      } else {
        var error := K.SomeFault(patch.value, context);
        g := RejectedUnsafe(attempt, binding, GuardCode(error), usage);
      }
  }

  lemma AnswerIsLogged(g: Generation)
    requires !g.Started?
    ensures AnswersGenerate(StoredInput(g)) && OutcomeOf(g.attempt, g.binding, StoredInput(g)) == g
  {
  }

  lemma DoOne(jobId: int, fits: Fitting, s: Held, op: Op)
    ensures var (t, r) := Do(jobId, fits, s, op); DoAll(jobId, fits, s, [op]) == (t, if r.Ok? then Ok(()) else r)
    ensures !op.ReceiptOp? ==> Reached(jobId, fits, s, [op]).None?
  {
    assert [op][1..] == [];
  }

  /** Until a run comes to its first receipt, receipts stay as they were; from then on the log knows one. */
  ghost predicate ReceiptsAgree(start: Held, c: Course) {
    if c.reply.Ok? then
      && (ReceiptOpen(c.held.log) || c.flow.state in {NoOp, WorkflowState.Failed, Synthesized})
      && (if c.aimed.None? then
            LatestReceipt(c.held.log) == LatestReceipt(start.log) && c.held.file == start.file && !Ended(c.flow)
          else LatestReceipt(c.held.log).Some? && !Clash(start, c.aimed))
    else
      && (c.reply == Err(StoreFailed(Conflict)) <==> Clash(start, c.aimed))
      && (c.aimed.None? || c.reply == Err(StoreFailed(Conflict)) ==>
            LatestReceipt(c.held.log) == LatestReceipt(start.log) && c.held.file == start.file)
  }

  lemma ArriveAgrees(w: World, start: Held, c: Course, h: Held, input: Input)
    requires ReceiptsAgree(start, c) && c.reply.Ok? && FlowFine(c.flow, w.jobId) && Moves(c.flow, input)
    requires LatestReceipt(h.log) == LatestReceipt(c.held.log) && h.file == c.held.file
    requires FlowStep(c.flow, input).Ok?
    ensures ReceiptsAgree(start, Arrive(w, c, h, FlowStep(c.flow, input).value.0, FlowStep(c.flow, input).value.1))
  {
    hide DoAll, FlowStep, LatestReceipt, Reached, EffectOps, EventsOf;
    StepOps(c.flow, input);
    MovesOn(c.flow, input);
    var (g, effects) := FlowStep(c.flow, input).value;
    var ops := EffectOps(effects);
    if Ended(g) {
      EndDo(w.jobId, w.fits, h, ops);
      HarmlessDo(w.jobId, w.fits, h, ops[0]);
      var (t, q) := Do(w.jobId, w.fits, h, ops[0]);
      hide Do;
      ReceiptDo(w.fits, t, ops[1].receipt);
      hide ReceiptStep;
    } else {
      EventsAreHarmless(w.jobId, w.fits, h, ops);
    }
  }

  lemma MovesOn(f: Flow, input: Input)
    requires Moves(f, input)
    ensures f.state !in {NoOp, WorkflowState.Failed, Synthesized}
  {
  }

  /** A run ends in a conflict exactly if the first receipt it comes to write is not the orphaned one. */
  lemma {:induction false} ConflictExactly(w: World, start: Held, inputs: seq<Input>)
    requires Legal(w, start, inputs) && ReceiptOpen(start.log)
    ensures var c := CourseOf(w, start, inputs);
            && ReceiptsAgree(start, c)
            && (c.reply == Err(StoreFailed(Conflict)) <==> Clash(start, c.aimed))
  {
    hide DoAll, FlowStep, Answers, Moves, LatestReceipt, FlowFine, Arrive, EntryOps;
    if inputs != [] {
      var init, input := inputs[..|inputs| - 1], inputs[|inputs| - 1];
      ConflictExactly(w, start, init);
      CourseIsFine(w, start, init);
      var c := CourseOf(w, start, init);
      AnswersMove(w, c.held.log, c.flow, input);
      EntryIsHarmless(w, c.held, c.flow, input);
      var (h, r) := DoAll(w.jobId, w.fits, c.held, EntryOps(c.held.log, c.flow, input));
      if r.Ok? && FlowStep(c.flow, input).Ok? {
        ArriveAgrees(w, start, c, h, input);
      }
    }
  }

  /** The orphaned receipt lies there as it is, or has been logged. */
  predicate OrphanKept(orphan: Receipt, s: Held) {
    (LatestReceipt(s.log).None? && s.file == Some(orphan)) || ReceiptRecord(orphan) in s.log
  }

  lemma DoKeepsOrphan(jobId: int, fits: Fitting, s: Held, op: Op, orphan: Receipt)
    requires OrphanKept(orphan, s)
    ensures OrphanKept(orphan, Do(jobId, fits, s, op).0)
  {
    KeepsReceipt(s.log, RecordOf(op));
  }

  lemma {:induction false} DoAllKeepsOrphan(jobId: int, fits: Fitting, s: Held, ops: seq<Op>, orphan: Receipt)
    requires OrphanKept(orphan, s)
    ensures OrphanKept(orphan, DoAll(jobId, fits, s, ops).0)
    decreases ops
  {
    hide OrphanKept, Do;
    if ops != [] {
      DoKeepsOrphan(jobId, fits, s, ops[0], orphan);
      DoAllKeepsOrphan(jobId, fits, Do(jobId, fits, s, ops[0]).0, ops[1..], orphan);
    }
  }

  /** Whatever a run is fed and however it ends, an orphaned receipt stays until it is logged itself. */
  lemma {:induction false} CourseKeepsOrphan(w: World, start: Held, inputs: seq<Input>, orphan: Receipt)
    requires OrphanKept(orphan, start)
    ensures OrphanKept(orphan, CourseOf(w, start, inputs).held)
  {
    hide OrphanKept, DoAll, EntryOps, EffectOps, FlowStep;
    if inputs != [] {
      var init, input := inputs[..|inputs| - 1], inputs[|inputs| - 1];
      CourseKeepsOrphan(w, start, init, orphan);
      var c := CourseOf(w, start, init);
      var ops := EntryOps(c.held.log, c.flow, input);
      DoAllKeepsOrphan(w.jobId, w.fits, c.held, ops, orphan);
      if FlowStep(c.flow, input).Ok? {
        DoAllKeepsOrphan(w.jobId, w.fits, DoAll(w.jobId, w.fits, c.held, ops).0,
                         EffectOps(FlowStep(c.flow, input).value.1), orphan);
      }
    }
  }

  lemma StoreErrors(reply: Result<(), WikiError>)
    ensures reply.Err? && reply.error.StoreFailed? ==>
              || reply == Err(StoreFailed(PowerLost)) || reply == Err(StoreFailed(RecoveryRequired))
              || reply == Err(StoreFailed(Conflict))
  {
    match reply
    case Err(StoreFailed(PowerLost)) =>
    case Err(StoreFailed(RecoveryRequired)) =>
    case Err(StoreFailed(Conflict)) =>
    case _ =>
  }

  /** On an honest log, with 23 steps of power, room for every record of its own and no clash with an
      orphaned receipt, a run goes well. */
  lemma GoesWell(w: World, start: Held, inputs: seq<Input>)
    requires Legal(w, start, inputs) && HonestLog(start.log, w.jobId) && w.context.jobId == w.jobId
    requires ReceiptOpen(start.log) && start.power >= MAX_STEPS
    requires forall op :: Writes(w, start, inputs, op) ==> w.fits(RecordOf(op))
    requires !Clash(start, CourseOf(w, start, inputs).aimed)
    ensures CourseOf(w, start, inputs).reply.Ok?
  {
    hide CourseOf, Legal, HonestLog, ReceiptOpen, Clash, ReceiptsAgree, Writes;
    CourseCosts(w, start, inputs);
    CourseIsHonest(w, start, inputs);
    ConflictExactly(w, start, inputs);
    var reply := CourseOf(w, start, inputs).reply;
    StoreErrors(reply);
    if reply == Err(StoreFailed(RecoveryRequired)) {
      var op := RefusalIsNamed(w, start, inputs);
    }
  }
}
