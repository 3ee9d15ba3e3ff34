/** The wiki workflow: evaluation, bounded generation, validation, commit, receipt; and its durable log. */
module WikiWorkflow {
  import opened Protocol
  import K = Knowledge
  import R = Runtime

  type TransactionId = int

  datatype DurabilityCode =
    | Decision | Constraint | Preference | Architecture | DurableBehavior | DiagnosedLesson | TodoOrRisk
    | Repeated | LookupOnly | InconclusiveFailure | NoDurableSignal

  datatype Durability = Durable(code: DurabilityCode) | Passing(code: DurabilityCode)

  function CodeText(code: DurabilityCode): string {
    match code
    case Decision => "durable_decision"
    case Constraint => "durable_constraint"
    case Preference => "durable_preference"
    case Architecture => "durable_architecture"
    case DurableBehavior => "durable_behavior"
    case DiagnosedLesson => "diagnosed_lesson"
    case TodoOrRisk => "todo_or_risk"
    case Repeated => "repeated_information"
    case LookupOnly => "lookup_only"
    case InconclusiveFailure => "inconclusive_failure"
    case NoDurableSignal => "no_durable_signal"
  }

  datatype WorkflowState =
    | EvaluationPending | NoOp | SynthesisPending | Generating | Validating | Committing
    | Synthesized | Pending | Failed

  datatype WikiEvent = WikiEvent(state: WorkflowState, code: string, usage: Option<(ModelBinding, Usage)>)
  datatype Receipt = Receipt(
    outcome: WorkflowState, code: string, binding: ModelBinding, usage: Option<Usage>,
    patchHash: Option<K.Patch>, transaction: Option<TransactionId>)

  /** A request to the model; evidence and current excerpts are the same throughout a run. */
  datatype Request = Request(binding: ModelBinding, repairOnly: bool) {
    function Attempt(): nat { if repairOnly then 2 else 1 }
  }

  datatype Input =
    | Evaluated(decision: Durability)
    | GeneratedPatch(patch: K.Patch, usage: Usage)
    | SchemaRejected(code: string, usage: Usage)
    | UnsafeRejected(code: string, usage: Usage)
    | SemanticRejected(code: string)
    | GenerationUnavailable(code: string)
    | PatchValidated(patchHash: K.Patch)
    | Committed(transaction: TransactionId)
    | CommitPending(code: string)
    | Rebind(binding: ModelBinding)
    | Recover

  datatype Effect =
    | PersistEvent(event: WikiEvent)
    | PublishEvent(event: WikiEvent)
    | Generate(request: Request)
    | Validate(patch: K.Patch)
    | Commit(patch: K.Patch, patchHash: K.Patch)
    | PersistReceipt(receipt: Receipt)
    | PublishReceipt(receipt: Receipt)

  datatype WorkflowError = InvalidTransition | WrongJob | InvalidCode | MissingPatch

  /** The workflow's fields. A digest of a patch is free, so it is written as the patch itself. */
  datatype Flow = Flow(
    jobId: int, binding: ModelBinding, state: WorkflowState, attempts: nat,
    usage: Option<Usage>, patch: Option<K.Patch>, patchHash: Option<K.Patch>)

  type Stepped = Result<(Flow, seq<Effect>), WorkflowError>

  function Observed(f: Flow, code: string, usage: Option<Usage>): seq<Effect> {
    var event := WikiEvent(f.state, code, if usage.Some? then Some((f.binding, usage.value)) else None);
    [PersistEvent(event), PublishEvent(event)]
  }

  function ReceiptFor(f: Flow, outcome: WorkflowState, code: string, transaction: Option<TransactionId>): seq<Effect> {
    var receipt := Receipt(outcome, code, f.binding, f.usage, f.patchHash, transaction);
    [PersistReceipt(receipt), PublishReceipt(receipt)]
  }

  /** Ending in a state, with an event and a receipt. */
  function EndIn(f: Flow, state: WorkflowState, code: string, usage: Option<Usage>,
                 transaction: Option<TransactionId>): Stepped {
    if !ValidCode(code) then Err(InvalidCode) else
    var g := f.(state := state);
    Ok((g, Observed(g, code, usage) + ReceiptFor(g, state, code, transaction)))
  }

  function WithUsage(f: Flow, usage: Usage): Flow { f.(usage := Some(R.MergeUsage(f.usage, usage))) }

  function AfterEvaluation(f: Flow, decision: Durability): Stepped {
    match decision
    case Passing(code) => EndIn(f, NoOp, CodeText(code), None, None)
    case Durable(code) =>
      var g := f.(state := Generating, attempts := 1);
      Ok((g, Observed(f.(state := SynthesisPending), CodeText(code), None)
             + Observed(g, "generation_started", None) + [Generate(Request(f.binding, false))]))
  }

  function AfterSchemaRejection(f: Flow, code: string, usage: Usage): Stepped {
    if !ValidCode(code) then Err(InvalidCode) else
    var g := WithUsage(f, usage);
    if g.attempts >= 2 then EndIn(g, WorkflowState.Failed, "schema_repair_exhausted", g.usage, None)
    else
      var h := g.(attempts := g.attempts + 1);
      Ok((h, Observed(h, "schema_repair_started", h.usage) + [Generate(Request(f.binding, true))]))
  }

  /** What an input does to the workflow; a refused input changes nothing. */
  function FlowStep(f: Flow, input: Input): Stepped {
    match input
    case Evaluated(decision) =>
      if f.state == EvaluationPending then AfterEvaluation(f, decision) else Err(InvalidTransition)
    case GeneratedPatch(patch, usage) =>
      if f.state != Generating then Err(InvalidTransition)
      else if patch.jobId != f.jobId then Err(WrongJob)
      else
        var g := WithUsage(f, usage).(patch := Some(patch), state := Validating);
        Ok((g, Observed(g, "patch_received", g.usage) + [Validate(patch)]))
    case SchemaRejected(code, usage) =>
      if f.state != Generating then Err(InvalidTransition) else AfterSchemaRejection(f, code, usage)
    case UnsafeRejected(code, usage) =>
      if f.state != Generating then Err(InvalidTransition)
      else var g := WithUsage(f, usage); EndIn(g, WorkflowState.Failed, code, g.usage, None)
    case GenerationUnavailable(code) =>
      if f.state != Generating then Err(InvalidTransition) else EndIn(f, Pending, code, f.usage, None)
    case SemanticRejected(code) =>
      if f.state != Validating then Err(InvalidTransition) else EndIn(f, WorkflowState.Failed, code, f.usage, None)
    case PatchValidated(patchHash) =>
      if f.state != Validating then Err(InvalidTransition)
      else if f.patch.None? then Err(MissingPatch)
      else
        var g := f.(patchHash := Some(patchHash), state := Committing);
        Ok((g, Observed(g, "patch_validated", g.usage) + [Commit(f.patch.value, patchHash)]))
    case Committed(transaction) =>
      if f.state != Committing then Err(InvalidTransition)
      else EndIn(f, Synthesized, "synthesized", f.usage, Some(transaction))
    case CommitPending(code) =>
      if f.state != Committing then Err(InvalidTransition) else EndIn(f, Pending, code, f.usage, None)
    case Rebind(binding) =>
      if f.state != Pending then Err(InvalidTransition)
      else
        var g := Flow(f.jobId, binding, Generating, 1, None, None, None);
        Ok((g, Observed(g, "explicit_model_rebind", None) + [Generate(Request(binding, false))]))
    case Recover =>
      if f.state in {SynthesisPending, Generating, Validating, Committing} then
        EndIn(f, Pending, "recovered_pending", f.usage, None)
      else Ok((f, []))
  }

  class MainModelWikiWorkflow {
    const jobId: int
    var binding: ModelBinding
    var state: WorkflowState
    var attempts: nat
    var usage: Option<Usage>
    var patch: Option<K.Patch>
    var patchHash: Option<K.Patch>

    ghost function View(): Flow
      reads this
    {
      Flow(jobId, binding, state, attempts, usage, patch, patchHash)
    }

    constructor (jobId: int, binding: ModelBinding)
      ensures View() == Flow(jobId, binding, EvaluationPending, 0, None, None, None)
    {
      this.jobId, this.binding, state, attempts := jobId, binding, EvaluationPending, 0;
      usage, patch, patchHash := None, None, None;
    }

    method Observe(code: string, seen: Option<Usage>) returns (effects: seq<Effect>)
      ensures effects == Observed(View(), code, seen)
    {
      var event := WikiEvent(state, code, if seen.Some? then Some((binding, seen.value)) else None);
      return [PersistEvent(event), PublishEvent(event)];
    }

    method End(next: WorkflowState, code: string, seen: Option<Usage>, transaction: Option<TransactionId>)
      returns (r: Result<seq<Effect>, WorkflowError>)
      modifies this`state
      ensures var stepped := EndIn(old(View()), next, code, seen, transaction);
              if stepped.Ok? then View() == stepped.value.0 && r == Ok(stepped.value.1)
              else View() == old(View()) && r == Err(stepped.error)
    {
      if !ValidCode(code) {
        return Err(InvalidCode);
      }
      state := next;
      var events := Observe(code, seen);
      var receipt := Receipt(next, code, binding, usage, patchHash, transaction);
      return Ok(events + [PersistReceipt(receipt), PublishReceipt(receipt)]);
    }

    method Evaluate(decision: Durability) returns (r: Result<seq<Effect>, WorkflowError>)
      modifies this
      ensures var stepped := AfterEvaluation(old(View()), decision);
              if stepped.Ok? then View() == stepped.value.0 && r == Ok(stepped.value.1)
              else View() == old(View()) && r == Err(stepped.error)
    {
      match decision {
        case Passing(code) =>
          r := End(NoOp, CodeText(code), None, None);
        case Durable(code) =>
          state := SynthesisPending;
          var judged := Observe(CodeText(code), None);
          state := Generating;
          attempts := 1;
          var started := Observe("generation_started", None);
          r := Ok(judged + started + [Generate(Request(binding, false))]);
      }
    }

    method RejectSchema(code: string, spent: Usage) returns (r: Result<seq<Effect>, WorkflowError>)
      modifies this
      ensures var stepped := AfterSchemaRejection(old(View()), code, spent);
              if stepped.Ok? then View() == stepped.value.0 && r == Ok(stepped.value.1)
              else View() == old(View()) && r == Err(stepped.error)
    {
      if !ValidCode(code) {
        return Err(InvalidCode);
      }
      usage := Some(R.MergeUsage(usage, spent));
      if attempts >= 2 {
        FixedCodesValid();
        r := End(WorkflowState.Failed, "schema_repair_exhausted", usage, None);
        return;
      }
      attempts := attempts + 1;
      var events := Observe("schema_repair_started", usage);
      return Ok(events + [Generate(Request(binding, true))]);
    }

    /** Applies one input to the workflow in place. */
    method Apply(input: Input) returns (r: Result<seq<Effect>, WorkflowError>)
      modifies this
      ensures var stepped := FlowStep(old(View()), input);
              if stepped.Ok? then View() == stepped.value.0 && r == Ok(stepped.value.1)
              else View() == old(View()) && r == Err(stepped.error)
    {
      hide ValidCode, AfterEvaluation, AfterSchemaRejection, R.MergeUsage;
      match input {
        case Evaluated(decision) =>
          if state != EvaluationPending { return Err(InvalidTransition); }
          r := Evaluate(decision);
        case GeneratedPatch(received, spent) =>
          if state != Generating { return Err(InvalidTransition); }
          if received.jobId != jobId { return Err(WrongJob); }
          usage, patch, state := Some(R.MergeUsage(usage, spent)), Some(received), Validating;
          var events := Observe("patch_received", usage);
          r := Ok(events + [Validate(received)]);
        case SchemaRejected(code, spent) =>
          if state != Generating { return Err(InvalidTransition); }
          r := RejectSchema(code, spent);
        case UnsafeRejected(code, spent) =>
          if state != Generating { return Err(InvalidTransition); }
          if !ValidCode(code) { return Err(InvalidCode); }
          usage := Some(R.MergeUsage(usage, spent));
          r := End(WorkflowState.Failed, code, usage, None);
        case GenerationUnavailable(code) =>
          if state != Generating { return Err(InvalidTransition); }
          r := End(Pending, code, usage, None);
        case SemanticRejected(code) =>
          if state != Validating { return Err(InvalidTransition); }
          r := End(WorkflowState.Failed, code, usage, None);
        case PatchValidated(digest) =>
          if state != Validating { return Err(InvalidTransition); }
          if patch.None? { return Err(MissingPatch); }
          patchHash, state := Some(digest), Committing;
          var events := Observe("patch_validated", usage);
          r := Ok(events + [Commit(patch.value, digest)]);
        case Committed(transaction) =>
          if state != Committing { return Err(InvalidTransition); }
          r := End(Synthesized, "synthesized", usage, Some(transaction));
        case CommitPending(code) =>
          if state != Committing { return Err(InvalidTransition); }
          r := End(Pending, code, usage, None);
        case Rebind(next) =>
          if state != Pending { return Err(InvalidTransition); }
          binding, attempts, usage, patch, patchHash, state := next, 1, None, None, None, Generating;
          var events := Observe("explicit_model_rebind", None);
          r := Ok(events + [Generate(Request(binding, false))]);
        case Recover =>
          if state in {SynthesisPending, Generating, Validating, Committing} {
            r := End(Pending, "recovered_pending", usage, None);
          } else {
            r := Ok([]);
          }
      }
    }
  }

  lemma FixedCodesValid()
    ensures ValidCode("schema_repair_exhausted") && ValidCode("synthesized") && ValidCode("recovered_pending")
  {
  }

  lemma DurableCodeValid(code: DurabilityCode)
    requires code in {Decision, Constraint, Preference, Architecture}
    ensures ValidCode(CodeText(code))
  {
  }

  lemma LessonCodeValid(code: DurabilityCode)
    requires code in {DurableBehavior, DiagnosedLesson, TodoOrRisk, Repeated}
    ensures ValidCode(CodeText(code))
  {
  }

  lemma PassingCodeValid(code: DurabilityCode)
    requires code in {LookupOnly, InconclusiveFailure, NoDurableSignal}
    ensures ValidCode(CodeText(code))
  {
  }

  lemma CodeTextValid(code: DurabilityCode)
    ensures ValidCode(CodeText(code))
  {
    hide ValidCode, CodeText;
    if code in {Decision, Constraint, Preference, Architecture} {
      DurableCodeValid(code);
    } else if code in {DurableBehavior, DiagnosedLesson, TodoOrRisk, Repeated} {
      LessonCodeValid(code);
    } else {
      PassingCodeValid(code);
    }
  }

  // ---------------------------------------------------------------- the durable log

  datatype Generation =
    | Started(attempt: nat, binding: ModelBinding)
    | Accepted(attempt: nat, binding: ModelBinding, patch: K.Patch, usage: Usage)
    | RejectedSchema(attempt: nat, binding: ModelBinding, code: string, usage: Usage)
    | RejectedUnsafe(attempt: nat, binding: ModelBinding, code: string, usage: Usage)
    | Unavailable(attempt: nat, binding: ModelBinding, code: string)

  datatype LogRecord =
    | EventRecord(event: WikiEvent)
    | GenerationRecord(generation: Generation)
    | ReceiptRecord(receipt: Receipt)
    | RebindRecord(binding: ModelBinding)

  function LatestReceipt(log: seq<LogRecord>): Option<Receipt> {
    if log == [] then None
    else if log[|log| - 1].ReceiptRecord? then Some(log[|log| - 1].receipt)
    else LatestReceipt(log[..|log| - 1])
  }

  function LatestRebind(log: seq<LogRecord>): Option<ModelBinding> {
    if log == [] then None
    else if log[|log| - 1].RebindRecord? then Some(log[|log| - 1].binding)
    else LatestRebind(log[..|log| - 1])
  }

  /** The latest outcome logged for this attempt and binding. */
  function LoggedOutcome(log: seq<LogRecord>, attempt: nat, binding: ModelBinding): (g: Option<Generation>)
    ensures g.Some? ==> !g.value.Started? && g.value.attempt == attempt && g.value.binding == binding
    ensures g.Some? ==> GenerationRecord(g.value) in log
    ensures g.None? ==> forall k :: 0 <= k < |log| && log[k].GenerationRecord? && !log[k].generation.Started? ==>
                          log[k].generation.attempt != attempt || log[k].generation.binding != binding
  {
    if log == [] then None else
    var last := log[|log| - 1];
    if last.GenerationRecord? && !last.generation.Started? && last.generation.attempt == attempt
       && last.generation.binding == binding
    then Some(last.generation)
    else LoggedOutcome(log[..|log| - 1], attempt, binding)
  }

  predicate WasStarted(log: seq<LogRecord>, attempt: nat, binding: ModelBinding) {
    GenerationRecord(Started(attempt, binding)) in log
  }

  datatype StoreError = RecoveryRequired | Conflict | PowerLost

  /** What a job has on disk: an append-only log, and a receipt file beside it. `power` says how many
      more atomic steps there are before the process dies. */
  datatype Held = Held(log: seq<LogRecord>, file: Option<Receipt>, power: nat)

  type Fitting = LogRecord -> bool
  type Written = (Held, Result<(), StoreError>)

  /** Writing one record: what is there is not written again, and what is too long for a line never is. */
  function AppendStep(fits: Fitting, s: Held, record: LogRecord): Written {
    if record in s.log then (s, Ok(()))
    else if !fits(record) then (s, Err(RecoveryRequired))
    else if s.power == 0 then (s, Err(PowerLost))
    else (s.(log := s.log + [record], power := s.power - 1), Ok(()))
  }

  /** A generation has one outcome. */
  function GenerationStep(jobId: int, fits: Fitting, s: Held, g: Generation): Written {
    var existing := FirstOutcome(s.log, g.attempt, g.binding);
    if g.attempt == 0 || g.attempt > 2 || (g.Accepted? && g.patch.jobId != jobId) then (s, Err(RecoveryRequired))
    else if !g.Started? && existing.Some? then (s, if existing.value == g then Ok(()) else Err(Conflict))
    else AppendStep(fits, s, GenerationRecord(g))
  }

  function SetFile(s: Held, receipt: Receipt): Written {
    if s.power == 0 then (s, Err(PowerLost)) else (s.(file := Some(receipt), power := s.power - 1), Ok(()))
  }

  /** The receipt file first and the log second: a crash between the two leaves the file ahead. Only a
      pending receipt gives way to another, and a file that the log does not know gives way to none. */
  function ReceiptStep(fits: Fitting, s: Held, receipt: Receipt): Written {
    var known := LatestReceipt(s.log);
    if known == Some(receipt) then (s, Ok(()))
    else if known.Some? && known.value.outcome != Pending then (s, Err(Conflict))
    else if known.None? && s.file.Some? && s.file.value != receipt then (s, Err(Conflict))
    else
      var (t, r) := if known.None? && s.file.Some? then (s, Ok(())) else SetFile(s, receipt);
      if r.Err? then (t, r) else AppendStep(fits, t, ReceiptRecord(receipt))
  }

  /** A job can be bound to another model once. */
  function RebindStep(fits: Fitting, s: Held, binding: ModelBinding): Written {
    var latest := LatestRebind(s.log);
    if latest == Some(binding) then (s, Ok(()))
    else if latest.Some? then (s, Err(Conflict))
    else AppendStep(fits, s, RebindRecord(binding))
  }

  class WorkflowStore {
    const jobId: int
    const fits: Fitting
    var log: seq<LogRecord>
    var receiptFile: Option<Receipt>
    var power: nat

    ghost function View(): Held
      reads this
    {
      Held(log, receiptFile, power)
    }

    constructor (jobId: int, log: seq<LogRecord>, receiptFile: Option<Receipt>, fits: Fitting)
      ensures this.jobId == jobId && this.fits == fits && View() == Held(log, receiptFile, 0)
    {
      this.jobId, this.log, this.receiptFile, this.fits, power := jobId, log, receiptFile, fits, 0;
    }

    method NewRun(power: nat)
      modifies this`power
      ensures this.power == power
    {
      this.power := power;
    }

    method Append(record: LogRecord) returns (r: Result<(), StoreError>)
      modifies this`log, this`power
      ensures (View(), r) == AppendStep(fits, old(View()), record)
    {
      if record in log {
        return Ok(());
      }
      if !fits(record) {
        return Err(RecoveryRequired);
      }
      if power == 0 {
        return Err(PowerLost);
      }
      log, power := log + [record], power - 1;
      return Ok(());
    }

    method AppendGeneration(g: Generation) returns (r: Result<(), StoreError>)
      modifies this`log, this`power
      ensures (View(), r) == GenerationStep(jobId, fits, old(View()), g)
    {
      if g.attempt == 0 || g.attempt > 2 || (g.Accepted? && g.patch.jobId != jobId) {
        return Err(RecoveryRequired);
      }
      if !g.Started? {
        var existing := FirstOutcome(log, g.attempt, g.binding);
        if existing.Some? {
          return if existing.value == g then Ok(()) else Err(Conflict);
        }
      }
      r := Append(GenerationRecord(g));
    }

    method AppendReceipt(receipt: Receipt) returns (r: Result<(), StoreError>)
      modifies this
      ensures (View(), r) == ReceiptStep(fits, old(View()), receipt)
    {
      var existing := LatestReceipt(log);
      if existing.Some? {
        if existing.value == receipt {
          return Ok(());
        }
        if existing.value.outcome != Pending {
          return Err(Conflict);
        }
        if power == 0 {
          return Err(PowerLost);
        }
        receiptFile, power := Some(receipt), power - 1;
      } else if receiptFile.Some? {
        if receiptFile.value != receipt {
          return Err(Conflict);
        }
      } else {
        if power == 0 {
          return Err(PowerLost);
        }
        receiptFile, power := Some(receipt), power - 1;
      }
      r := Append(ReceiptRecord(receipt));
    }

    method AppendRebind(binding: ModelBinding) returns (r: Result<(), StoreError>)
      modifies this`log, this`power
      ensures (View(), r) == RebindStep(fits, old(View()), binding)
    {
      var latest := LatestRebind(log);
      if latest == Some(binding) {
        return Ok(());
      }
      if latest.Some? {
        return Err(Conflict);
      }
      r := Append(RebindRecord(binding));
    }
  }

  /** The first outcome logged for this attempt and binding. */
  function FirstOutcome(log: seq<LogRecord>, attempt: nat, binding: ModelBinding): (g: Option<Generation>)
    ensures g.Some? ==> GenerationRecord(g.value) in log
  {
    if log == [] then None
    else if log[0].GenerationRecord? && !log[0].generation.Started? && log[0].generation.attempt == attempt
            && log[0].generation.binding == binding
    then Some(log[0].generation)
    else FirstOutcome(log[1..], attempt, binding)
  }
}
