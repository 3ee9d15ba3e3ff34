/** A receipt orphaned by a crash: how a run leaves one behind, and how it blocks every later run that
    comes to another receipt. */
module WikiCrashes {
  import opened Protocol
  import opened WikiWorkflow
  import opened WikiCourse
  import opened WikiDriver
  import K = Knowledge
  import R = Runtime

  // ---------------------------------------------------------------- runs in which all goes well

  /** The decision is to synthesize, the log already holds an accepted patch for the first attempt, and
      the patch will be committed. */
  ghost predicate Smooth(w: World, log: seq<LogRecord>, patch: K.Patch, usage: Usage) {
    && w.decision.Durable? && w.rebind.None? && w.context.jobId == w.jobId == patch.jobId
    && K.Accepted(patch, w.context) && w.commit(patch).Ok?
    && LoggedOutcome(log, 1, w.binding) == Some(Accepted(1, w.binding, patch, usage))
  }

  /** Such a run stays on its way: from the logged patch to the synthesis. */
  ghost predicate OnTheWay(w: World, c: Course, patch: K.Patch, usage: Usage) {
    && LoggedOutcome(c.held.log, 1, w.binding) == Some(Accepted(1, w.binding, patch, usage))
    && LatestRebind(c.held.log).None?
    && c.flow.jobId == w.jobId
    && (|| (c.flow.state == EvaluationPending && c.flow.binding == w.binding)
        || (c.flow.state == Generating && c.flow.attempts == 1 && c.flow.binding == w.binding)
        || (c.flow.state == Validating && c.flow.patch == Some(patch))
        || (c.flow.state == Committing && c.flow.patch == Some(patch))
        || c.flow.state == Synthesized)
    && (c.aimed.Some? ==> c.aimed.value.outcome == Synthesized)
  }

  /** Events and receipts change neither outcomes nor rebinds. */
  lemma KeepsOutcome(log: seq<LogRecord>, record: LogRecord, attempt: nat, binding: ModelBinding)
    requires record.EventRecord? || record.ReceiptRecord?
    ensures LoggedOutcome(log + [record], attempt, binding) == LoggedOutcome(log, attempt, binding)
    ensures LatestRebind(log + [record]) == LatestRebind(log)
  {
    assert (log + [record])[..|log|] == log;
  }

  lemma {:induction false} DoAllKeepsOutcome(jobId: int, fits: Fitting, s: Held, ops: seq<Op>, attempt: nat,
                                             binding: ModelBinding)
    requires forall i :: 0 <= i < |ops| ==> !ops[i].GenerationOp?
    ensures var t := DoAll(jobId, fits, s, ops).0;
            && LoggedOutcome(t.log, attempt, binding) == LoggedOutcome(s.log, attempt, binding)
            && LatestRebind(t.log) == LatestRebind(s.log)
    decreases ops
  {
    hide LoggedOutcome, LatestRebind;
    if ops != [] {
      KeepsOutcome(s.log, RecordOf(ops[0]), attempt, binding);
      var (t, r) := Do(jobId, fits, s, ops[0]);
      if r.Ok? {
        DoAllKeepsOutcome(jobId, fits, t, ops[1..], attempt, binding);
      }
    }
  }

  /** On its way a run is fed only what leads on, and writes no generation. */
  lemma NextOnTheWay(w: World, c: Course, patch: K.Patch, usage: Usage, input: Input)
    requires Smooth(w, c.held.log, patch, usage) && OnTheWay(w, c, patch, usage)
    requires Answers(w, c.held.log, c.flow, input)
    ensures EntryOps(c.held.log, c.flow, input) == [] && Moves(c.flow, input)
    ensures FlowStep(c.flow, input).Ok? ==>
              var g := FlowStep(c.flow, input).value.0;
              OnTheWay(w, c.(flow := g), patch, usage) && (Ended(g) ==> g.state == Synthesized)
  {
    hide K.Accepted, Judged, LoggedOutcome, ValidCode, CodeText, R.MergeUsage;
  }

  lemma ReachedOnTheWay(jobId: int, fits: Fitting, s: Held, ops: seq<Op>, input: Input, g: Flow, effects: seq<Effect>)
    requires ops == EffectOps(effects) && OpsOfStep(input, g, effects) && (Ended(g) ==> g.state == Synthesized)
    ensures var aimed := Reached(jobId, fits, s, ops); aimed.Some? ==> aimed.value.outcome == Synthesized
    ensures forall i :: 0 <= i < |ops| ==> !ops[i].GenerationOp?
  {
    hide EffectOps;
    if Ended(g) {
      EndDo(jobId, fits, s, ops);
    } else {
      EventsAreHarmless(jobId, fits, s, ops);
    }
  }

  lemma {:induction false} StaysOnTheWay(w: World, start: Held, inputs: seq<Input>, patch: K.Patch, usage: Usage)
    requires Legal(w, start, inputs) && Smooth(w, start.log, patch, usage) && LatestRebind(start.log).None?
    ensures OnTheWay(w, CourseOf(w, start, inputs), patch, usage)
  {
    hide DoAll, FlowStep, Answers, Moves, LoggedOutcome, LatestRebind, EntryOps, EffectOps, Reached;
    if inputs != [] {
      var init, input := inputs[..|inputs| - 1], inputs[|inputs| - 1];
      StaysOnTheWay(w, start, init, patch, usage);
      var c := CourseOf(w, start, init);
      NextOnTheWay(w, c, patch, usage, input);
      NothingToDo(w.jobId, w.fits, c.held);
      if FlowStep(c.flow, input).Ok? {
        var (g, effects) := FlowStep(c.flow, input).value;
        StepOps(c.flow, input);
        ReachedOnTheWay(w.jobId, w.fits, c.held, EffectOps(effects), input, g, effects);
        DoAllKeepsOutcome(w.jobId, w.fits, c.held, EffectOps(effects), 1, w.binding);
      }
    }
  }

  // ---------------------------------------------------------------- blocked for good

  /** A pending receipt lies orphaned beside a log that already holds the accepted patch. */
  ghost predicate Blocked(w: World, s: Held, orphan: Receipt, patch: K.Patch, usage: Usage) {
    && LatestReceipt(s.log).None? && s.file == Some(orphan) && orphan.outcome == Pending
    && HonestLog(s.log, w.jobId) && LatestRebind(s.log).None? && Smooth(w, s.log, patch, usage)
  }

  /** A run that would synthesize fails, with a conflict if it has the power and the room to come that
      far, and leaves the job as blocked as it was. */
  lemma BlockedConflicts(w: World, s: Held, orphan: Receipt, patch: K.Patch, usage: Usage, inputs: seq<Input>,
                         r: Result<RunReport, WikiError>, left: Held)
    requires Blocked(w, s, orphan, patch, usage) && RunsAs(w, s, inputs, r, left)
    ensures r.Err? && Blocked(w, left, orphan, patch, usage)
    ensures s.power >= MAX_STEPS && (forall op :: Writes(w, s, inputs, op) ==> w.fits(RecordOf(op))) ==>
              r == Err(StoreFailed(Conflict))
  {
    hide CourseOf, Legal, HonestLog, LatestReceipt, LatestRebind, LoggedOutcome, Writes, K.Accepted;
    StaysOnTheWay(w, s, inputs, patch, usage);
    ConflictExactly(w, s, inputs);
    CourseIsHonest(w, s, inputs);
    RunsWell(w, s, inputs, r, left);
  }

  /** One more run of a blocked job, by any driver. */
  method RunBlocked(driver: WikiDriver, plan: RunPlan, ghost orphan: Receipt, ghost patch: K.Patch, ghost usage: Usage)
    returns (r: Result<RunReport, WikiError>, ghost inputs: seq<Input>)
    requires driver.Valid() && plan.requested.None?
    requires Blocked(driver.PlannedWorld(plan, driver.store.log), driver.store.View(), orphan, patch, usage)
    modifies driver`calls, driver`commits, driver.store
    ensures driver.Valid() && r.Err?
    ensures var w, start := driver.PlannedWorld(plan, old(driver.store.log)), old(driver.store.View());
            start.power >= MAX_STEPS && (forall op :: Writes(w, start, inputs, op) ==> w.fits(RecordOf(op))) ==>
              r == Err(StoreFailed(Conflict))
    ensures Blocked(driver.PlannedWorld(plan, driver.store.log), driver.store.View(), orphan, patch, usage)
  {
    hide HonestLog, K.Accepted, RunsAs, LoggedOutcome, Writes;
    ghost var start, w := driver.store.View(), driver.PlannedWorld(plan, driver.store.log);
    ghost var generated;
    r, generated, inputs := driver.Run(plan);
    BlockedConflicts(w, start, orphan, patch, usage, inputs, r, driver.store.View());
  }

  /** The plans all decide to synthesize in the same context, and commit the patch. */
  ghost predicate WouldSynthesize(plan: RunPlan, jobId: int, patch: K.Patch) {
    && plan.requested.None? && plan.decision.Durable? && jobId == patch.jobId
    && K.Accepted(patch, plan.context.(jobId := jobId)) && plan.commit(patch).Ok?
  }

  /** However often a blocked job is run again to be synthesized, every run fails and leaves it blocked;
      where there is room for every record, each run of 23 steps fails with the conflict. */
  method KeepRerunning(driver: WikiDriver, plans: seq<RunPlan>, ghost orphan: Receipt, ghost patch: K.Patch,
                       ghost usage: Usage)
    returns (errors: seq<WikiError>)
    requires driver.Valid()
    requires forall k :: 0 <= k < |plans| ==> WouldSynthesize(plans[k], driver.store.jobId, patch)
    requires OrphanBeside(driver.store.View(), driver.store.jobId, driver.binding, orphan, patch, usage)
    modifies driver`calls, driver`commits, driver.store
    ensures driver.Valid() && |errors| == |plans|
    ensures (forall record :: driver.store.fits(record)) ==>
              forall k :: 0 <= k < |plans| && plans[k].power >= MAX_STEPS ==> errors[k] == StoreFailed(Conflict)
    ensures OrphanBeside(driver.store.View(), driver.store.jobId, driver.binding, orphan, patch, usage)
  {
    hide HonestLog, K.Accepted, LoggedOutcome, LatestReceipt, LatestRebind, Writes;
    errors := [];
    for i := 0 to |plans|
      invariant driver.Valid() && |errors| == i
      invariant (forall record :: driver.store.fits(record)) ==>
                  forall k :: 0 <= k < i && plans[k].power >= MAX_STEPS ==> errors[k] == StoreFailed(Conflict)
      invariant OrphanBeside(driver.store.View(), driver.store.jobId, driver.binding, orphan, patch, usage)
    {
      assert WouldSynthesize(plans[i], driver.store.jobId, patch);
      driver.store.NewRun(plans[i].power);
      var r;
      ghost var inputs;
      r, inputs := RunBlocked(driver, plans[i], orphan, patch, usage);
      errors := errors + [r.error];
    }
  }

  /** What of a blocked job does not depend on the next run. */
  ghost predicate OrphanBeside(s: Held, jobId: int, binding: ModelBinding, orphan: Receipt, patch: K.Patch,
                               usage: Usage) {
    && LatestReceipt(s.log).None? && s.file == Some(orphan) && orphan.outcome == Pending
    && HonestLog(s.log, jobId) && LatestRebind(s.log).None?
    && LoggedOutcome(s.log, 1, binding) == Some(Accepted(1, binding, patch, usage))
  }

  // ---------------------------------------------------------------- how a receipt comes to be orphaned

  /** A fresh job: the model answers with a patch that is accepted, the commit is unavailable, and there
      is power for eight steps. */
  ghost predicate Unlucky(w: World, patch: K.Patch, usage: Usage) {
    && w.decision.Durable? && w.rebind.None? && w.context.jobId == w.jobId == patch.jobId
    && K.Accepted(patch, w.context) && WellFormed(patch)
    && w.model((1, w.binding)) == Answer(Some(patch), usage) && w.commit(patch) == Err(KnowledgeUnavailable)
    && forall record :: w.fits(record)
  }

  const FRESH: Held := Held([], None, 8)

  /** No event of these states has been logged. */
  ghost predicate Without(log: seq<LogRecord>, states: set<WorkflowState>) {
    forall e: WikiEvent :: e.state in states ==> EventRecord(e) !in log
  }

  ghost predicate NoGenerations(log: seq<LogRecord>) {
    forall g :: GenerationRecord(g) !in log
  }

  /** Where the run stands after `k` inputs. */
  ghost predicate After(w: World, c: Course, k: nat, patch: K.Patch, usage: Usage) {
    && c.reply.Ok? && c.aimed.None? && c.held.file.None? && c.flow.jobId == w.jobId && c.flow.binding == w.binding
    && LatestReceipt(c.held.log).None? && LatestRebind(c.held.log).None?
    && (if k >= 2 then LoggedOutcome(c.held.log, 1, w.binding) == Some(Accepted(1, w.binding, patch, usage))
        else NoGenerations(c.held.log))
    && match k
       case 0 => c.held == FRESH && c.flow.state == EvaluationPending
       case 1 => c.held.power == 6 && Without(c.held.log, {Validating, Committing, Pending})
                 && c.flow.state == Generating && c.flow.attempts == 1
       case 2 => c.held.power == 3 && Without(c.held.log, {Committing, Pending})
                 && c.flow.state == Validating && c.flow.patch == Some(patch)
       case 3 => c.held.power == 2 && Without(c.held.log, {Pending})
                 && c.flow.state == Committing && c.flow.patch == Some(patch)
       case _ => false
  }

  lemma AppendNew(fits: Fitting, s: Held, record: LogRecord)
    requires record !in s.log && fits(record) && s.power > 0
    ensures AppendStep(fits, s, record) == (s.(log := s.log + [record], power := s.power - 1), Ok(()))
  {
  }

  lemma KeepsRebind(log: seq<LogRecord>, record: LogRecord)
    requires !record.RebindRecord?
    ensures LatestRebind(log + [record]) == LatestRebind(log)
  {
    assert (log + [record])[..|log|] == log;
  }

  /** Events that are new are written one after the other, and touch nothing else. */
  lemma NewEvent(w: World, s: Held, event: WikiEvent)
    requires EventRecord(event) !in s.log && (forall record :: w.fits(record)) && s.power > 0
    ensures var t := s.(log := s.log + [EventRecord(event)], power := s.power - 1);
            && Do(w.jobId, w.fits, s, EventOp(event)) == (t, Ok(()))
            && LatestReceipt(t.log) == LatestReceipt(s.log) && LatestRebind(t.log) == LatestRebind(s.log)
            && (forall attempt, binding ::
                  LoggedOutcome(t.log, attempt, binding) == LoggedOutcome(s.log, attempt, binding))
            && (NoGenerations(s.log) ==> NoGenerations(t.log))
            && (forall states :: Without(s.log, states) && event.state !in states ==> Without(t.log, states))
  {
    AppendNew(w.fits, s, EventRecord(event));
    KeepsReceipt(s.log, EventRecord(event));
    KeepsRebind(s.log, EventRecord(event));
    forall attempt, binding
      ensures LoggedOutcome(s.log + [EventRecord(event)], attempt, binding) == LoggedOutcome(s.log, attempt, binding)
    {
      KeepsOutcome(s.log, EventRecord(event), attempt, binding);
    }
  }

  lemma OneEvent(w: World, s: Held, ops: seq<Op>)
    requires |ops| == 1 && ops[0].EventOp? && EventRecord(ops[0].event) !in s.log
    requires (forall record :: w.fits(record)) && s.power > 0
    ensures DoAll(w.jobId, w.fits, s, ops)
            == (s.(log := s.log + [EventRecord(ops[0].event)], power := s.power - 1), Ok(()))
    ensures Reached(w.jobId, w.fits, s, ops).None?
  {
    NewEvent(w, s, ops[0].event);
    hide Do;
    assert ops == [ops[0]];
    DoOne(w.jobId, w.fits, s, ops[0]);
  }

  lemma TwoEvents(w: World, s: Held, ops: seq<Op>)
    requires |ops| == 2 && ops[0].EventOp? && ops[1].EventOp? && ops[0].event != ops[1].event
    requires EventRecord(ops[0].event) !in s.log && EventRecord(ops[1].event) !in s.log
    requires (forall record :: w.fits(record)) && s.power >= 2
    ensures DoAll(w.jobId, w.fits, s, ops)
            == (s.(log := s.log + [EventRecord(ops[0].event)] + [EventRecord(ops[1].event)], power := s.power - 2),
                Ok(()))
    ensures Reached(w.jobId, w.fits, s, ops).None?
  {
    NewEvent(w, s, ops[0].event);
    var t := s.(log := s.log + [EventRecord(ops[0].event)], power := s.power - 1);
    NewEvent(w, t, ops[1].event);
    hide Do;
    assert ops == [ops[0], ops[1]];
    DoTwo(w.jobId, w.fits, s, ops[0], ops[1]);
    assert ops[1..] == [ops[1]];
    DoOne(w.jobId, w.fits, t, ops[1]);
  }

  /** The events of a decision to synthesize. */
  lemma FirstOps(f: Flow, code: DurabilityCode)
    requires f.state == EvaluationPending
    ensures var step := FlowStep(f, Evaluated(Durable(code)));
            && step.Ok? && step.value.0 == f.(state := Generating, attempts := 1)
            && var ops := EffectOps(step.value.1);
            |ops| == 2 && ops[0].EventOp? && ops[1].EventOp?
            && ops[0].event.state == SynthesisPending && ops[1].event.state == Generating
    ensures var effects := FlowStep(f, Evaluated(Durable(code))).value.1;
            effects != [] && !effects[|effects| - 1].PublishReceipt?
  {
    hide CodeText;
    var g := f.(state := Generating, attempts := 1);
    var loud := Generate(Request(f.binding, false));
    var second := Observed(g, "generation_started", None) + [loud];
    ObservedOps(f.(state := SynthesisPending), CodeText(code), None, second);
    ObservedOps(g, "generation_started", None, [loud]);
    LoudOps(loud);
    assert FlowStep(f, Evaluated(Durable(code))).value.1
        == Observed(f.(state := SynthesisPending), CodeText(code), None) + second;
  }

  lemma FirstStep(w: World, c: Course, patch: K.Patch, usage: Usage, input: Input)
    requires Unlucky(w, patch, usage) && After(w, c, 0, patch, usage) && Answers(w, c.held.log, c.flow, input)
    ensures After(w, Advance(w, c, input), 1, patch, usage)
  {
    hide K.Accepted, WellFormed, FlowStep, DoAll, Reached, EffectOps, EventsOf, LatestReceipt, LatestRebind;
    FirstOps(c.flow, w.decision.code);
    NothingToDo(w.jobId, w.fits, c.held);
    var ops := EffectOps(FlowStep(c.flow, input).value.1);
    TwoEvents(w, c.held, ops);
    NewEvent(w, c.held, ops[0].event);
    NewEvent(w, c.held.(log := c.held.log + [EventRecord(ops[0].event)], power := 7), ops[1].event);
  }

  /** A step in the middle writes one event, of the state it comes to. */
  lemma MidStep(f: Flow, input: Input)
    requires input.GeneratedPatch? || input.PatchValidated?
    requires FlowStep(f, input).Ok?
    ensures var (g, effects) := FlowStep(f, input).value;
            && g.state == (if input.GeneratedPatch? then Validating else Committing) && g.jobId == f.jobId
            && g.binding == f.binding
            && g.patch == (if input.GeneratedPatch? then Some(input.patch) else f.patch)
            && |EffectOps(effects)| == 1 && EffectOps(effects)[0].EventOp?
            && EffectOps(effects)[0].event.state == g.state
            && effects != [] && !effects[|effects| - 1].PublishReceipt?
  {
    hide ValidCode, R.MergeUsage;
    var (g, effects) := FlowStep(f, input).value;
    var loud := effects[|effects| - 1];
    ObservedOps(g, if input.GeneratedPatch? then "patch_received" else "patch_validated", g.usage, [loud]);
    LoudOps(loud);
  }

  /** The first attempt is neither logged nor started. */
  lemma NothingGenerated(log: seq<LogRecord>, attempt: nat, binding: ModelBinding)
    requires NoGenerations(log)
    ensures LoggedOutcome(log, attempt, binding).None? && !WasStarted(log, attempt, binding)
  {
  }

  /** The start of the call and its outcome are written. */
  lemma CallIsLogged(w: World, s: Held, patch: K.Patch, usage: Usage, ops: seq<Op>)
    requires ops == [GenerationOp(Started(1, w.binding)), GenerationOp(Accepted(1, w.binding, patch, usage))]
    requires NoGenerations(s.log) && (forall record :: w.fits(record)) && s.power >= 2 && patch.jobId == w.jobId
    ensures var (t, r) := DoAll(w.jobId, w.fits, s, ops);
            && r == Ok(()) && t.power == s.power - 2 && t.file == s.file
            && LatestReceipt(t.log) == LatestReceipt(s.log) && LatestRebind(t.log) == LatestRebind(s.log)
            && LoggedOutcome(t.log, 1, w.binding) == Some(Accepted(1, w.binding, patch, usage))
            && (forall states :: Without(s.log, states) ==> Without(t.log, states))
  {
    var a, b := GenerationRecord(ops[0].generation), GenerationRecord(ops[1].generation);
    var t := s.(log := s.log + [a], power := s.power - 1);
    NothingGenerated(s.log, 1, w.binding);
    NoOutcomeYet(s.log, 1, w.binding);
    hide LoggedOutcome, FirstOutcome, LatestReceipt, LatestRebind;
    DoTwo(w.jobId, w.fits, s, ops[0], ops[1]);
    AppendNew(w.fits, s, a);
    NoOutcomeYet(t.log, 1, w.binding);
    AppendNew(w.fits, t, b);
    KeepsReceipt(s.log, a);
    KeepsReceipt(t.log, b);
    KeepsRebind(s.log, a);
    KeepsRebind(t.log, b);
    OutcomeIsLast(t.log, ops[1].generation);
  }

  lemma OutcomeIsLast(log: seq<LogRecord>, g: Generation)
    requires !g.Started?
    ensures LoggedOutcome(log + [GenerationRecord(g)], g.attempt, g.binding) == Some(g)
  {
  }

  lemma SecondStep(w: World, c: Course, patch: K.Patch, usage: Usage, input: Input)
    requires Unlucky(w, patch, usage) && After(w, c, 1, patch, usage) && Answers(w, c.held.log, c.flow, input)
    ensures After(w, Advance(w, c, input), 2, patch, usage)
  {
    hide K.Accepted, WellFormed, DoAll, Reached, EffectOps, EventsOf, LatestReceipt, LatestRebind, LoggedOutcome,
         R.MergeUsage;
    NothingGenerated(c.held.log, 1, w.binding);
    assert input == GeneratedPatch(patch, usage);
    var ops := EntryOps(c.held.log, c.flow, input);
    CallIsLogged(w, c.held, patch, usage, ops);
    var h := DoAll(w.jobId, w.fits, c.held, ops).0;
    MidStep(c.flow, input);
    hide FlowStep;
    var events := EffectOps(FlowStep(c.flow, input).value.1);
    OneEvent(w, h, events);
    NewEvent(w, h, events[0].event);
  }

  lemma ThirdStep(w: World, c: Course, patch: K.Patch, usage: Usage, input: Input)
    requires Unlucky(w, patch, usage) && After(w, c, 2, patch, usage) && Answers(w, c.held.log, c.flow, input)
    ensures After(w, Advance(w, c, input), 3, patch, usage)
  {
    hide K.Accepted, WellFormed, DoAll, Reached, EffectOps, EventsOf, LatestReceipt, LatestRebind, LoggedOutcome,
         R.MergeUsage;
    assert input == PatchValidated(patch);
    NothingToDo(w.jobId, w.fits, c.held);
    MidStep(c.flow, input);
    hide FlowStep;
    var events := EffectOps(FlowStep(c.flow, input).value.1);
    OneEvent(w, c.held, events);
    NewEvent(w, c.held, events[0].event);
  }

  /** The power ends between the receipt file and the log. */
  lemma LastStep(w: World, c: Course, patch: K.Patch, usage: Usage, input: Input)
    requires Unlucky(w, patch, usage) && After(w, c, 3, patch, usage) && Answers(w, c.held.log, c.flow, input)
    ensures var d := Advance(w, c, input);
            && d.reply == Err(StoreFailed(PowerLost)) && d.held.file.Some? && d.held.file.value.outcome == Pending
            && LatestReceipt(d.held.log).None? && LatestRebind(d.held.log).None?
            && LoggedOutcome(d.held.log, 1, w.binding) == Some(Accepted(1, w.binding, patch, usage))
  {
    hide K.Accepted, WellFormed, DoAll, Reached, EffectOps, EventsOf, LatestReceipt, LatestRebind, LoggedOutcome,
         R.MergeUsage;
    CommitCodesValid(KnowledgeUnavailable);
    assert input == CommitPending(CommitCode(KnowledgeUnavailable));
    NothingToDo(w.jobId, w.fits, c.held);
    PendingOps(c.flow, input);
    hide FlowStep;
    var ops := EffectOps(FlowStep(c.flow, input).value.1);
    EndDo(w.jobId, w.fits, c.held, ops);
    NewEvent(w, c.held, ops[0].event);
    var t := c.held.(log := c.held.log + [EventRecord(ops[0].event)], power := 1);
    FileThenNothing(w.fits, t, ops[1].receipt);
  }

  lemma PendingOps(f: Flow, input: Input)
    requires f.state == Committing && input.CommitPending? && ValidCode(input.code)
    ensures FlowStep(f, input).Ok?
    ensures var ops := EffectOps(FlowStep(f, input).value.1);
            && |ops| == 2 && ops[0].EventOp? && ops[0].event.state == Pending
            && ops[1].ReceiptOp? && ops[1].receipt.outcome == Pending
  {
    hide ValidCode;
    var g := f.(state := Pending);
    var tail := ReceiptFor(g, Pending, input.code, None);
    ObservedOps(g, input.code, f.usage, tail);
    assert tail[1..] == [tail[1]];
    LoudOps(tail[1]);
    assert EffectOps(tail) == [ReceiptOp(tail[0].receipt)] + EffectOps(tail[1..]);
  }

  lemma FileThenNothing(fits: Fitting, s: Held, receipt: Receipt)
    requires LatestReceipt(s.log).None? && s.file.None? && s.power == 1 && fits(ReceiptRecord(receipt))
    ensures ReceiptStep(fits, s, receipt) == (s.(file := Some(receipt), power := 0), Err(PowerLost))
  {
    if ReceiptRecord(receipt) in s.log {
      KnownReceipt(s.log, receipt);
    }
  }

  /** The unlucky run goes the one way it can: its inputs are the first few of four, and with the fourth
      the power is gone. */
  lemma {:induction false} UnluckyCourse(w: World, inputs: seq<Input>, patch: K.Patch, usage: Usage)
    requires Unlucky(w, patch, usage) && Legal(w, FRESH, inputs)
    ensures var c := CourseOf(w, FRESH, inputs);
            if |inputs| <= 3 then After(w, c, |inputs|, patch, usage)
            else
              && c.reply == Err(StoreFailed(PowerLost)) && c.held.file.Some? && c.held.file.value.outcome == Pending
              && LatestReceipt(c.held.log).None? && LatestRebind(c.held.log).None?
              && LoggedOutcome(c.held.log, 1, w.binding) == Some(Accepted(1, w.binding, patch, usage))
  {
    hide Unlucky, Answers, Advance, LoggedOutcome, LatestRebind, LatestReceipt;
    if inputs == [] {
      AtFirst(w, patch, usage);
    } else {
      var init, input := inputs[..|inputs| - 1], inputs[|inputs| - 1];
      UnluckyCourse(w, init, patch, usage);
      var c := CourseOf(w, FRESH, init);
      match |init|
      case 0 => FirstStep(w, c, patch, usage, input);
      case 1 => SecondStep(w, c, patch, usage, input);
      case 2 => ThirdStep(w, c, patch, usage, input);
      case 3 => LastStep(w, c, patch, usage, input);
      case _ =>
    }
  }

  lemma AtFirst(w: World, patch: K.Patch, usage: Usage)
    ensures After(w, Opening(w, FRESH), 0, patch, usage)
  {
  }

  lemma UnluckyRun(w: World, inputs: seq<Input>, r: Result<RunReport, WikiError>, left: Held, patch: K.Patch,
                   usage: Usage)
    requires Unlucky(w, patch, usage) && RunsAs(w, FRESH, inputs, r, left)
    ensures r == Err(StoreFailed(PowerLost)) && left.file.Some?
    ensures OrphanBeside(left, w.jobId, w.binding, left.file.value, patch, usage)
  {
    hide CourseOf, Legal, HonestLog, LatestReceipt, LatestRebind, LoggedOutcome, K.Accepted;
    UnluckyCourse(w, inputs, patch, usage);
    EmptyIsHonest(w.jobId);
    CourseIsHonest(w, FRESH, inputs);
  }

  lemma EmptyIsHonest(jobId: int)
    ensures HonestLog([], jobId)
  {
  }

  /** A run whose commit is unavailable dies between the receipt file and the log; every later run that
      would commit the patch fails, with a conflict if it lives long enough, and the job is never settled. */
  method OrphanedReceipt(jobId: int, binding: ModelBinding, unlucky: RunPlan, later: seq<RunPlan>,
                         patch: K.Patch, usage: Usage)
    returns (first: Result<RunReport, WikiError>, errors: seq<WikiError>)
    requires unlucky.requested.None? && unlucky.power == 8 && unlucky.decision.Durable? && patch.jobId == jobId
    requires K.Accepted(patch, unlucky.context.(jobId := jobId)) && WellFormed(patch)
    requires unlucky.model((1, binding)) == Answer(Some(patch), usage)
    requires unlucky.commit(patch) == Err(KnowledgeUnavailable)
    requires forall k :: 0 <= k < |later| ==> WouldSynthesize(later[k], jobId, patch)
    ensures first == Err(StoreFailed(PowerLost)) && |errors| == |later|
    ensures forall k :: 0 <= k < |later| && later[k].power >= MAX_STEPS ==> errors[k] == StoreFailed(Conflict)
  {
    hide K.Accepted, WellFormed, RunsAs;
    var store := new WorkflowStore(jobId, [], None, _ => true);
    var driver := new WikiDriver(store, binding);
    store.NewRun(8);
    ghost var w := driver.PlannedWorld(unlucky, []);
    ghost var generated, inputs;
    first, generated, inputs := driver.Run(unlucky);
    UnluckyRun(w, inputs, first, store.View(), patch, usage);
    errors := KeepRerunning(driver, later, store.receiptFile.value, patch, usage);
  }

  // ---------------------------------------------------------------- a patch there is

  /** One new page on one piece of evidence. */
  function OnePatch(jobId: int): K.Patch {
    K.Patch(jobId, [K.Create(K.KnowledgePage(1, 1, 1, K.Current, None, [K.Citation(1, 1)], true, None), 100)], 100)
  }

  function OneSource(jobId: int): K.Context { K.Context(jobId, map[1 := 1], []) }

  lemma OnePatchIsAccepted(jobId: int)
    ensures K.Accepted(OnePatch(jobId), OneSource(jobId)) && WellFormed(OnePatch(jobId))
  {
    var patch := OnePatch(jobId);
    assert patch.operations[..0] == [];
    assert K.ById([]) == map[];
    assert K.ApplyAll(map[], patch.operations) == map[1 := K.Projected(patch.operations[0].page)];
  }

  /** The concrete case: one page, one unavailable commit, and as many reruns as one likes. */
  method OnePageOrphaned(code: DurabilityCode, usage: Usage, reruns: nat)
    returns (first: Result<RunReport, WikiError>, errors: seq<WikiError>)
    ensures first == Err(StoreFailed(PowerLost))
    ensures |errors| == reruns && forall k :: 0 <= k < reruns ==> errors[k] == StoreFailed(Conflict)
  {
    var patch, binding := OnePatch(1), ModelBinding(1, 1, true);
    OnePatchIsAccepted(1);
    var unlucky := RunPlan(Durable(code), OneSource(1), None, _ => Answer(Some(patch), usage),
                           _ => Err(KnowledgeUnavailable), 8);
    var lucky := RunPlan(Durable(code), OneSource(1), None, _ => Answer(Some(patch), usage), _ => Ok(1), MAX_STEPS);
    first, errors := OrphanedReceipt(1, binding, unlucky, seq(reruns, _ => lucky), patch, usage);
  }
}
