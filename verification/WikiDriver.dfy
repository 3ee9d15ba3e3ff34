/** Running the wiki workflow over its durable log: at most one model call per attempt and binding. */
module WikiDriver {
  import opened Protocol
  import opened WikiWorkflow
  import opened WikiCourse
  import opened WikiLaws
  import StoreLaws = WikiStoreLaws
  import K = Knowledge

  // ---------------------------------------------------------------- the driver

  /** The patch at hand, once validated, is the one the guard accepted; a finished one was committed. */
  ghost predicate Guarded(f: Flow, context: K.Context, commits: seq<K.Patch>) {
    && (f.state == Committing || f.state == Synthesized ==>
          f.patch.Some? && f.patchHash == f.patch && K.Accepted(f.patch.value, context))
    && (f.state == Synthesized ==> f.patch.value in commits)
  }

  /** Generations so far: no attempt twice for a binding, none past the second, and room for what is
      still to come. */
  ghost predicate Bounded(generated: seq<Call>, f: Flow, waiting: bool, rebind: Option<ModelBinding>,
                          first: ModelBinding) {
    && (forall i, j :: 0 <= i < j < |generated| ==> generated[i] != generated[j])
    && (forall i :: 0 <= i < |generated| ==>
          && 1 <= generated[i].0 <= 2 && (generated[i].1 == first || Some(generated[i].1) == rebind)
          && (generated[i].1 == f.binding ==>
                generated[i].0 < f.attempts || (generated[i].0 == f.attempts && !(waiting && f.state == Generating)))
          && (Rebindable(f, rebind) ==> Some(generated[i].1) != rebind))
    && |generated| + Credit(f, waiting, rebind) <= 4
    && (f.binding == first || Some(f.binding) == rebind)
  }

  /** Generations that can still come. */
  function Credit(f: Flow, waiting: bool, rebind: Option<ModelBinding>): nat {
    (if Rebindable(f, rebind) then 2 else 0)
    + if f.state == Generating then
        (if waiting then (if f.attempts <= 1 then 2 else 1) else (if f.attempts <= 1 then 1 else 0))
      else 0
  }

  class WikiDriver {
    const store: WorkflowStore
    const binding: ModelBinding
    ghost var calls: seq<Call>
    ghost var commits: seq<K.Patch>

    /** Every call of the model was logged before it was made, and none was made twice. */
    ghost predicate Valid()
      reads `calls, store
    {
      && (forall i :: 0 <= i < |calls| ==> WasStarted(store.log, calls[i].0, calls[i].1))
      && (forall i, j :: 0 <= i < j < |calls| ==> calls[i] != calls[j])
    }

    constructor (store: WorkflowStore, binding: ModelBinding)
      ensures this.store == store && this.binding == binding && calls == [] && commits == [] && Valid()
    {
      this.store, this.binding, calls, commits := store, binding, [], [];
    }

    /** A run of this driver, as its course sees it. */
    function WorldOf(decision: Durability, context: K.Context, rebind: Option<ModelBinding>, model: Call -> Answer,
                     commit: K.Patch -> Result<TransactionId, CommitError>): World
    {
      World(store.jobId, binding, store.fits, decision, context, rebind, model, commit)
    }

    method Judge(answer: Answer, attempt: nat, binding: ModelBinding, context: K.Context) returns (g: Generation)
      ensures Judged(answer, attempt, binding, context, g)
      ensures !g.Started? && g.attempt == attempt && g.binding == binding
    {
      hide GuardCode, AnswerCode, K.Accepted, K.RefusedFor;
      match answer {
        case NoAnswer(error) =>
          return Unavailable(attempt, binding, AnswerCode(error));
        case Answer(patch, usage) =>
          if patch.None? {
            return RejectedSchema(attempt, binding, "schema_invalid", usage);
          }
          var valid := K.ValidatePatch(patch.value);
          if !valid {
            return RejectedSchema(attempt, binding, "schema_invalid", usage);
          }
          var error, _ := K.Validate(patch.value, context);
          return if error.None? then Accepted(attempt, binding, patch.value, usage)
                 else RejectedUnsafe(attempt, binding, GuardCode(error.value), usage);
      }
    }

    /** Logs the call, makes it, and logs its outcome. */
    method AskModel(attempt: nat, binding: ModelBinding, context: K.Context, model: Call -> Answer)
      returns (r: Result<Input, WikiError>, ghost meant: Input)
      requires Valid() && LoggedOutcome(store.log, attempt, binding).None? && !WasStarted(store.log, attempt, binding)
      modifies this`calls, store`log, store`power
      ensures Valid() && old(store.log) <= store.log
      ensures AnswersGenerate(meant) && GenerationAnswer(old(store.log), (attempt, binding), context, model, meant)
      ensures var ops := GenerationOps(old(store.log), attempt, binding, meant);
              var (s, q) := DoAll(store.jobId, store.fits, old(store.View()), ops);
              && store.View() == s && r == (if q.Ok? then Ok(meant) else Err(StoreFailed(q.error)))
              && calls == old(calls)
                          + if Do(store.jobId, store.fits, old(store.View()), ops[0]).1.Ok? then [(attempt, binding)]
                            else []
    {
      hide LoggedOutcome, FirstOutcome, Judged;
      ghost var start := store.View();
      var started := store.AppendGeneration(Started(attempt, binding));
      if started.Err? {
        ghost var g := SomeJudgement(model((attempt, binding)), attempt, binding, context);
        meant := StoredInput(g);
        AnswerIsLogged(g);
        DoTwo(store.jobId, store.fits, start, GenerationOp(Started(attempt, binding)), GenerationOp(g));
        return Err(StoreFailed(started.error)), meant;
      }
      calls := calls + [(attempt, binding)];
      var outcome := Judge(model((attempt, binding)), attempt, binding, context);
      meant := StoredInput(outcome);
      AnswerIsLogged(outcome);
      DoTwo(store.jobId, store.fits, start, GenerationOp(Started(attempt, binding)), GenerationOp(outcome));
      var logged := store.AppendGeneration(outcome);
      return if logged.Ok? then Ok(StoredInput(outcome)) else Err(StoreFailed(logged.error)), meant;
    }

    /** The outcome of one generation: what the log already holds, or what one call of the model gives.
        The call is logged before it is made, so a run that finds it started without an outcome never
        makes it again, and takes it as lost. `meant` is the answer also when it could not be logged. */
    method GenerationInput(request: Request, context: K.Context, model: Call -> Answer)
      returns (r: Result<Input, WikiError>, ghost meant: Input)
      requires Valid()
      modifies this`calls, store`log, store`power
      ensures Valid() && old(store.log) <= store.log
      ensures r.Ok? && LoggedOutcome(old(store.log), request.Attempt(), request.binding).None?
              && WasStarted(old(store.log), request.Attempt(), request.binding) ==>
                var lost := Unavailable(request.Attempt(), request.binding, "generation_outcome_unknown");
                r.value == StoredInput(lost) && store.log == old(store.log) + [GenerationRecord(lost)]
      ensures var call := (request.Attempt(), request.binding);
              && AnswersGenerate(meant) && GenerationAnswer(old(store.log), call, context, model, meant)
              && var ops := GenerationOps(old(store.log), call.0, call.1, meant);
                 var (s, q) := DoAll(store.jobId, store.fits, old(store.View()), ops);
              && store.View() == s && r == (if q.Ok? then Ok(meant) else Err(StoreFailed(q.error)))
              && calls == old(calls) + if |ops| == 2 && Do(store.jobId, store.fits, old(store.View()), ops[0]).1.Ok?
                                       then [call] else []
    {
      hide Judged;
      var attempt := request.Attempt();
      var stored := LoggedOutcome(store.log, attempt, request.binding);
      if stored.Some? {
        meant := StoredInput(stored.value);
        return Ok(StoredInput(stored.value)), meant;
      }
      if WasStarted(store.log, attempt, request.binding) {
        var unknown := Unavailable(attempt, request.binding, "generation_outcome_unknown");
        meant := StoredInput(unknown);
        DoOne(store.jobId, store.fits, store.View(), GenerationOp(unknown));
        var logged := store.AppendGeneration(unknown);
        return if logged.Ok? then Ok(StoredInput(unknown)) else Err(StoreFailed(logged.error)), meant;
      }
      r, meant := AskModel(attempt, request.binding, context, model);
    }

    /** Carries out a quiet effect. */
    method Record(effect: Effect) returns (r: Result<(), StoreError>)
      requires Valid() && Quiet(effect)
      modifies store
      ensures Valid() && old(store.log) <= store.log
      ensures (store.View(), r) == DoAll(store.jobId, store.fits, old(store.View()), OpsOf(effect))
    {
      match effect {
        case PersistEvent(event) =>
          DoOne(store.jobId, store.fits, store.View(), EventOp(event));
          var done := store.Append(EventRecord(event));
          return if done.Ok? then Ok(()) else done;
        case PersistReceipt(receipt) =>
          DoOne(store.jobId, store.fits, store.View(), ReceiptOp(receipt));
          var done := store.AppendReceipt(receipt);
          return if done.Ok? then Ok(()) else done;
        case PublishEvent(_) =>
          return Ok(());
      }
    }

    /** Carries out the effect the workflow waits for, and says what to feed back, if anything. */
    method Respond(effect: Effect, ghost decision: Durability, context: K.Context, rebind: Option<ModelBinding>,
                   model: Call -> Answer, commit: K.Patch -> Result<TransactionId, CommitError>, ghost f: Flow)
      returns (r: Result<Option<Input>, WikiError>, ghost meant: Option<Input>)
      requires Valid() && Awaited(effect, f) && Guarded(f, context, commits)
      modifies this`calls, this`commits, store`log, store`power
      ensures Valid() && old(store.log) <= store.log && old(commits) <= commits
      ensures meant.None? ==> r == Ok(None) && store.View() == old(store.View()) && effect.PublishReceipt? && Ended(f)
                              && !(f.state == Pending && Rebindable(f, rebind))
      ensures meant.Some? ==>
                && Answers(WorldOf(decision, context, rebind, model, commit), old(store.log), f, meant.value)
                && !Finishes(f, rebind)
                && var (s, q) := DoAll(store.jobId, store.fits, old(store.View()),
                                       EntryOps(old(store.log), f, meant.value));
                   store.View() == s && r == if q.Ok? then Ok(meant) else Err(StoreFailed(q.error))
      ensures meant.Some? && meant.value.Committed? ==> f.patch.Some? && f.patch.value in commits
    {
      hide K.Accepted, K.RefusedFor, GuardCode, CommitCode, GenerationAnswer, GenerationOps;
      match effect {
        case Generate(request) =>
          var input;
          ghost var answer;
          input, answer := GenerationInput(request, context, model);
          meant := Some(answer);
          return if input.Ok? then Ok(Some(input.value)) else Err(input.error), meant;
        case Validate(patch) =>
          var error, _ := K.Validate(patch, context);
          var input := if error.None? then PatchValidated(patch) else SemanticRejected(GuardCode(error.value));
          return Ok(Some(input)), Some(input);
        case Commit(patch, _) =>
          var done := commit(patch);
          if done.Ok? {
            commits := commits + [patch];
            return Ok(Some(Committed(done.value))), Some(Committed(done.value));
          }
          return Ok(Some(CommitPending(CommitCode(done.error)))), Some(CommitPending(CommitCode(done.error)));
        case PublishReceipt(receipt) =>
          if receipt.outcome == Pending && rebind.Some? && receipt.binding != rebind.value {
            return Ok(Some(Rebind(rebind.value))), Some(Rebind(rebind.value));
          }
          return Ok(None), None;
      }
    }

    /** Carries out the effect the workflow waits for: the queue that comes of it, or the receipt to report. */
    method Proceed(workflow: MainModelWikiWorkflow, effect: Effect, ghost decision: Durability, context: K.Context,
                   rebind: Option<ModelBinding>, model: Call -> Answer,
                   commit: K.Patch -> Result<TransactionId, CommitError>, ghost generated0: seq<Call>)
      returns (r: Result<seq<Effect>, WikiError>, receipt: Option<Receipt>, ghost generated: seq<Call>,
               ghost meant: Option<Input>)
      requires Valid() && Awaited(effect, workflow.View()) && Guarded(workflow.View(), context, commits)
      requires Bounded(generated0, workflow.View(), true, rebind, binding)
      modifies this`calls, this`commits, store`log, store`power, workflow
      ensures Valid() && old(store.log) <= store.log && old(commits) <= commits
      ensures Spaced(generated, binding, rebind)
      ensures meant.None? ==>
                && r == Ok([]) && effect.PublishReceipt? && receipt == Some(effect.receipt)
                && Published(effect.receipt, context, commits)
                && store.View() == old(store.View()) && workflow.View() == old(workflow.View())
                && Finishes(workflow.View(), rebind)
      ensures meant.Some? ==>
                && receipt.None?
                && Fed(old(workflow.View()), old(store.View()), meant.value, decision, context, rebind, model, commit,
                       workflow.View(), r)
                && (r.Ok? ==>
                      && Leads(r.value, workflow.View()) && Guarded(workflow.View(), context, commits)
                      && Bounded(generated, workflow.View(), true, rebind, binding)
                      && (Rebindable(old(workflow.View()), rebind) || !Rebindable(workflow.View(), rebind))
                      && (Rebindable(old(workflow.View()), rebind) == Rebindable(workflow.View(), rebind) ==>
                            Rank(workflow.View()) < Rank(old(workflow.View()))))
    {
      hide K.Accepted, FlowStep, Moves, Spaced, Bounded, Leads, DoAll, EntryOps, Answers;
      ghost var f := workflow.View();
      receipt := None;
      AwaitedIsLoud(effect, f);
      var input;
      input, meant := Respond(effect, decision, context, rebind, model, commit, f);
      generated := generated0 + if effect.Generate? then [(effect.request.Attempt(), effect.request.binding)] else [];
      Generated(generated0, generated, effect, f, rebind, binding);
      if input.Err? {
        assert DoAll(store.jobId, store.fits, old(store.View()), EntryOps(old(store.log), f, meant.value)).1.Err?;
        return Err(input.error), receipt, generated, meant;
      }
      if input.value.None? {
        AwaitedReceipt(effect, f, context, commits, old(commits));
        return Ok([]), Some(effect.receipt), generated, meant;
      }
      GeneratingTwice(effect, f);
      FeedsGuarded(WorldOf(decision, context, rebind, model, commit), old(store.log), f, input.value.value);
      Advances(f, input.value.value, context, commits, generated, rebind, binding);
      var next := workflow.Apply(input.value.value);
      return if next.Ok? then Ok(next.value) else Err(WorkflowFailed), receipt, generated, meant;
    }

    /** The input was the run's next one, getting it wrote what it should, and the workflow took it. */
    ghost predicate Fed(f: Flow, before: Held, input: Input, decision: Durability, context: K.Context,
                        rebind: Option<ModelBinding>, model: Call -> Answer,
                        commit: K.Patch -> Result<TransactionId, CommitError>, g: Flow,
                        r: Result<seq<Effect>, WikiError>)
      reads store
    {
      && Answers(WorldOf(decision, context, rebind, model, commit), before.log, f, input)
      && var (s, q) := DoAll(store.jobId, store.fits, before, EntryOps(before.log, f, input));
         var step := FlowStep(f, input);
      && store.View() == s
      && if q.Err? then r == Err(StoreFailed(q.error)) && g == f
         else if step.Err? then r == Err(WorkflowFailed) && g == f
         else r == Ok(step.value.1) && g == step.value.0
    }

    /** One more input of a run, or its end. */
    method GoOn(workflow: MainModelWikiWorkflow, effect: Effect, ghost decision: Durability, context: K.Context,
                rebind: Option<ModelBinding>, model: Call -> Answer,
                commit: K.Patch -> Result<TransactionId, CommitError>, ghost generated0: seq<Call>, ghost start: Held,
                ghost inputs0: seq<Input>, ghost c0: Course, ghost h0: Held, ghost effects0: seq<Effect>,
                ghost events: seq<WikiEvent>)
      returns (r: Result<seq<Effect>, WikiError>, receipt: Option<Receipt>, ghost generated: seq<Call>,
               ghost inputs: seq<Input>, ghost c: Course)
      requires Valid() && Awaited(effect, workflow.View()) && Guarded(workflow.View(), context, commits)
      requires Bounded(generated0, workflow.View(), true, rebind, binding) && !Quiet(effect)
      requires Draining(WorldOf(decision, context, rebind, model, commit), start, inputs0, c0, h0, workflow.View(),
                        effects0, [effect], store.View(), events)
      modifies this`calls, this`commits, store`log, store`power, workflow
      ensures Valid() && old(store.log) <= store.log && old(commits) <= commits
      ensures Spaced(generated, binding, rebind)
      ensures receipt.Some? ==>
                && r == Ok([]) && Published(receipt.value, context, commits) && workflow.View() == old(workflow.View())
                && forall report :: report == Ok(RunReport(events, receipt.value)) ==>
                     RunsAs(WorldOf(decision, context, rebind, model, commit), start, inputs, report, store.View())
      ensures r.Err? ==> forall report :: report == Err(r.error) ==>
                RunsAs(WorldOf(decision, context, rebind, model, commit), start, inputs, report, store.View())
      ensures r.Ok? && receipt.None? ==>
                && Leads(r.value, workflow.View()) && Guarded(workflow.View(), context, commits)
                && Bounded(generated, workflow.View(), true, rebind, binding)
                && (r.value != [] ==>
                      Draining(WorldOf(decision, context, rebind, model, commit), start, inputs, c, store.View(),
                               workflow.View(), r.value, r.value, store.View(), events))
                && (Rebindable(old(workflow.View()), rebind) || !Rebindable(workflow.View(), rebind))
                && (Rebindable(old(workflow.View()), rebind) == Rebindable(workflow.View(), rebind) ==>
                      Rank(workflow.View()) < Rank(old(workflow.View())))
    {
      hide K.Accepted, FlowStep, Spaced, Bounded, Guarded, Leads, Awaited, Published, Draining, RunsAs, DoAll, Finishes,
           EntryOps, Legal, CourseOf, Answers;
      ghost var w := WorldOf(decision, context, rebind, model, commit);
      inputs := inputs0;
      DrainLoud(w, start, inputs, c0, h0, workflow.View(), effects0, effect, store.View(), events);
      c := CourseOf(w, start, inputs);
      ghost var meant;
      r, receipt, generated, meant := Proceed(workflow, effect, decision, context, rebind, model, commit, generated0);
      if meant.Some? {
        FeedsNext(w, start, inputs, c, meant.value, workflow.View(), r, store.View(), events);
        inputs := inputs + [meant.value];
      }
    }

    /** Feeds the workflow until its receipt is out. The disk, the report and any failure are exactly
        those of the course that the inputs make. */
    method RunWorkflow(decision: Durability, context: K.Context, rebind: Option<ModelBinding>, model: Call -> Answer,
                       commit: K.Patch -> Result<TransactionId, CommitError>)
      returns (r: Result<RunReport, WikiError>, ghost generated: seq<Call>, ghost inputs: seq<Input>)
      requires Valid()
      modifies this`calls, this`commits, store
      ensures Valid() && old(store.log) <= store.log && old(commits) <= commits
      ensures Spaced(generated, binding, rebind)
      ensures RunsAs(WorldOf(decision, context, rebind, model, commit), old(store.View()), inputs, r, store.View())
      ensures r.Ok? ==> Published(r.value.receipt, context, commits)
      ensures r.Ok? ==> AllTold(WorldOf(decision, context, rebind, model, commit), old(store.View()), inputs, r.value)
    {
      hide K.Accepted, FlowStep, Spaced, Bounded, Guarded, Leads, Awaited, Published, Draining, RunsAs, Fed, DoAll,
           Finishes, AllTold;
      ghost var w, start := WorldOf(decision, context, rebind, model, commit), store.View();
      generated := [];
      var workflow := new MainModelWikiWorkflow(store.jobId, binding);
      Opens(workflow.View(), decision, context, commits, rebind);
      OpensDraining(w, start);
      inputs := [Evaluated(decision)];
      ghost var c, h := Opening(w, start), start;
      var first := workflow.Apply(Evaluated(decision));
      NothingSpaced(binding, rebind);
      var queue := first.value;
      ghost var effects := queue;
      LeadsSomewhere(queue, workflow.View());
      var events: seq<WikiEvent> := [];
      var receipt: Option<Receipt> := None;
      while queue != []
        invariant Valid() && old(store.log) <= store.log && old(commits) <= commits && fresh(workflow)
        invariant queue != [] ==>
                    && Leads(queue, workflow.View()) && Guarded(workflow.View(), context, commits)
                    && Bounded(generated, workflow.View(), true, rebind, binding)
                    && Draining(w, start, inputs, c, h, workflow.View(), effects, queue, store.View(), events)
        invariant Spaced(generated, binding, rebind)
        invariant queue == [] ==>
                    && receipt.Some? && Published(receipt.value, context, commits)
                    && RunsAs(w, start, inputs, Ok(RunReport(events, receipt.value)), store.View())
        decreases if Rebindable(workflow.View(), rebind) then 1 else 0, Rank(workflow.View()), |queue|
      {
        var effect := queue[0];
        if Quiet(effect) {
          QuietIsNotLast(queue, workflow.View());
          DrainQuiet(w, start, inputs, c, h, workflow.View(), effects, queue, store.View(), events);
          var done := Record(effect);
          if done.Err? {
            return Err(StoreFailed(done.error)), generated, inputs;
          }
          events := if effect.PublishEvent? then events + [effect.event] else events;
          queue := queue[1..];
        } else {
          LoudIsLast(queue, workflow.View());
          var next;
          next, receipt, generated, inputs, c :=
            GoOn(workflow, effect, decision, context, rebind, model, commit, generated, start, inputs, c, h, effects,
                 events);
          if next.Err? {
            return Err(next.error), generated, inputs;
          }
          queue, effects, h := next.value, next.value, store.View();
          if receipt.None? {
            LeadsSomewhere(queue, workflow.View());
          }
        }
      }
      ReportTells(w, start, inputs, RunReport(events, receipt.value), store.View());
      return Ok(RunReport(events, receipt.value)), generated, inputs;
    }

    /** One run of a job: a settled job returns its receipt, a rebind is logged first, and any other job
        is worked on from its log. */
    method Run(plan: RunPlan)
      returns (r: Result<RunReport, WikiError>, ghost generated: seq<Call>, ghost inputs: seq<Input>)
      requires Valid()
      modifies this`calls, this`commits, store
      ensures Valid() && old(store.log) <= store.log && old(commits) <= commits
      ensures Spaced(generated, binding, RebindOf(plan, old(store.log)))
      ensures RunOutcome(plan, old(store.View()), r, inputs, store.View())
      ensures var settled := LatestReceipt(old(store.log));
              settled.Some? && settled.value.outcome != Pending ==>
                && store.View() == old(store.View()) && calls == old(calls) && commits == old(commits)
                && r == if plan.requested.Some? then Err(WorkflowFailed) else Ok(RunReport([], settled.value))
      ensures r.Ok? && LatestReceipt(old(store.log)) != Some(r.value.receipt) ==>
                Published(r.value.receipt, plan.context.(jobId := store.jobId), commits)
    {
      hide K.Accepted, Published, RunsAs, Spaced;
      generated, inputs := [], [];
      var context := plan.context.(jobId := store.jobId);
      var receipt, latest := LatestReceipt(store.log), LatestRebind(store.log);
      NothingSpaced(binding, RebindOf(plan, store.log));
      if plan.requested.Some? {
        if receipt.None? || receipt.value.outcome != Pending {
          return Err(WorkflowFailed), generated, inputs;
        }
        var bound := store.AppendRebind(plan.requested.value);
        if bound.Err? {
          return Err(StoreFailed(bound.error)), generated, inputs;
        }
      }
      var rebind := if plan.requested.Some? then plan.requested else latest;
      if receipt.Some? && (rebind.None? || receipt.value.outcome != Pending || receipt.value.binding == rebind.value) {
        return Ok(RunReport([], receipt.value)), generated, inputs;
      }
      r, generated, inputs := RunWorkflow(plan.decision, context, rebind, plan.model, plan.commit);
    }

    /** The world of a planned run. */
    function PlannedWorld(plan: RunPlan, log: seq<LogRecord>): World {
      WorldOf(plan.decision, plan.context.(jobId := store.jobId), RebindOf(plan, log), plan.model, plan.commit)
    }

    /** How a planned run ends, and what it leaves, from what it finds. */
    ghost predicate RunOutcome(plan: RunPlan, start: Held, r: Result<RunReport, WikiError>, inputs: seq<Input>,
                               left: Held) {
      var receipt, rebind := LatestReceipt(start.log), RebindOf(plan, start.log);
      if plan.requested.Some? && (receipt.None? || receipt.value.outcome != Pending) then
        r == Err(WorkflowFailed) && left == start
      else
        var (s, q) := AfterRebind(store.fits, plan, start);
        if q.Err? then r == Err(StoreFailed(q.error)) && left == s
        else if receipt.Some?
             && (rebind.None? || receipt.value.outcome != Pending || receipt.value.binding == rebind.value)
        then r == Ok(RunReport([], receipt.value)) && left == s
        else RunsAs(PlannedWorld(plan, start.log), s, inputs, r, left)
    }

    /** Any number of runs, each dying wherever its power ends: the model is still never called twice
        for one attempt with one binding, each call was logged first, and a receipt file that a crash
        left behind stays until that receipt is logged. */
    method RunThroughCrashes(plans: seq<RunPlan>)
      requires Valid()
      modifies this`calls, this`commits, store
      ensures Valid() && old(store.log) <= store.log
      ensures forall i, j :: 0 <= i < j < |calls| ==> calls[i] != calls[j]
      ensures forall i :: 0 <= i < |calls| ==> WasStarted(store.log, calls[i].0, calls[i].1)
      ensures Orphaned(old(store.View())) ==> OrphanKept(old(store.receiptFile).value, store.View())
    {
      hide RunOutcome, OrphanKept, Orphaned;
      ghost var first := store.View();
      OrphanAtFirst(first);
      for i := 0 to |plans|
        invariant Valid() && old(store.log) <= store.log
        invariant Orphaned(first) ==> first.file.Some? && OrphanKept(first.file.value, store.View())
      {
        ghost var before := store.View();
        store.NewRun(plans[i].power);
        ghost var start := store.View();
        var r;
        ghost var generated, inputs;
        r, generated, inputs := Run(plans[i]);
        if Orphaned(first) {
          PowerKeepsOrphan(before, start, first.file.value);
          OutcomeKeepsOrphan(plans[i], start, r, inputs, store.View(), first.file.value);
        }
      }
      OrphanAtFirst(first);
    }

    /** However a planned run ends, an orphaned receipt stays until it is logged itself. */
    lemma OutcomeKeepsOrphan(plan: RunPlan, start: Held, r: Result<RunReport, WikiError>, inputs: seq<Input>,
                             left: Held, orphan: Receipt)
      requires RunOutcome(plan, start, r, inputs, left) && OrphanKept(orphan, start)
      ensures OrphanKept(orphan, left)
    {
      hide CourseOf, Legal, OrphanKept;
      RebindKeepsOrphan(store.fits, plan, start, orphan);
      CourseKeepsOrphan(PlannedWorld(plan, start.log), AfterRebind(store.fits, plan, start).0, inputs, orphan);
    }
  }

  /** What a report tells: its receipt how the run ended and all that it cost, each event the cost so far. */
  ghost predicate AllTold(w: World, start: Held, inputs: seq<Input>, report: RunReport) {
    && Tells(w, start, inputs, report.receipt)
    && forall event :: event in report.events ==>
         exists n :: 0 <= n < |inputs| && ToldAfter(w, start, inputs, event, n)
  }

  lemma ReportTells(w: World, start: Held, inputs: seq<Input>, report: RunReport, left: Held)
    requires RunsAs(w, start, inputs, Ok(report), left)
    ensures AllTold(w, start, inputs, report)
  {
    hide CourseOf, Legal, Tells, ToldAfter;
    ReceiptTells(w, start, inputs);
    EventsTell(w, start, inputs);
  }

  /** A run ends in a conflict exactly if the first receipt it comes to write is not the one that lies
      there orphaned. On an honest log, with 23 steps of power and room for every record of its own, it
      goes well unless it clashes. */
  lemma RunsWell(w: World, start: Held, inputs: seq<Input>, r: Result<RunReport, WikiError>, left: Held)
    requires RunsAs(w, start, inputs, r, left) && ReceiptOpen(start.log)
    ensures var clash := Clash(start, CourseOf(w, start, inputs).aimed);
            && (r == Err(StoreFailed(Conflict)) <==> clash)
            && (&& HonestLog(start.log, w.jobId) && w.context.jobId == w.jobId && start.power >= MAX_STEPS
                && (forall op :: Writes(w, start, inputs, op) ==> w.fits(RecordOf(op)))
                ==> (r.Ok? <==> !clash))
    ensures r.Ok? ==> CourseOf(w, start, inputs).aimed.Some?
  {
    hide CourseOf, Legal, HonestLog, ReceiptOpen, Clash, Writes;
    ConflictExactly(w, start, inputs);
    var c := CourseOf(w, start, inputs);
    if && HonestLog(start.log, w.jobId) && w.context.jobId == w.jobId && start.power >= MAX_STEPS
       && (forall op :: Writes(w, start, inputs, op) ==> w.fits(RecordOf(op))) && !Clash(start, c.aimed)
    {
      GoesWell(w, start, inputs);
    }
  }

  lemma OrphanAtFirst(s: Held)
    ensures Orphaned(s) ==> s.file.Some? && OrphanKept(s.file.value, s)
  {
  }

  lemma PowerKeepsOrphan(s: Held, t: Held, orphan: Receipt)
    requires OrphanKept(orphan, s) && t == s.(power := t.power)
    ensures OrphanKept(orphan, t)
  {
  }

  lemma RebindKeepsOrphan(fits: Fitting, plan: RunPlan, s: Held, orphan: Receipt)
    requires OrphanKept(orphan, s)
    ensures OrphanKept(orphan, AfterRebind(fits, plan, s).0)
  {
    if plan.requested.Some? {
      KeepsReceipt(s.log, RebindRecord(plan.requested.value));
    }
  }

  /** A requested rebind is logged before the run. */
  function AfterRebind(fits: Fitting, plan: RunPlan, start: Held): Written {
    if plan.requested.Some? then RebindStep(fits, start, plan.requested.value) else (start, Ok(()))
  }

  function RebindOf(plan: RunPlan, log: seq<LogRecord>): Option<ModelBinding> {
    if plan.requested.Some? then plan.requested else LatestRebind(log)
  }

  /** A run works with the model it is asked to, and else with the one the log was rebound to, if any. */
  lemma RebindIsAsked(plan: RunPlan, log: seq<LogRecord>)
    ensures plan.requested.Some? ==> RebindOf(plan, log) == plan.requested
    ensures plan.requested.None? ==>
              if RebindOf(plan, log).Some? then RebindRecord(RebindOf(plan, log).value) in log
              else forall k :: 0 <= k < |log| ==> !log[k].RebindRecord?
  {
    StoreLaws.RebindIs(log);
  }

  /** A run has gone as its course goes: it left what the course leaves on disk, and it reported the
      course's events and receipt, or failed as the course did. */
  ghost predicate RunsAs(w: World, start: Held, inputs: seq<Input>, r: Result<RunReport, WikiError>, left: Held) {
    && Legal(w, start, inputs)
    && var c := CourseOf(w, start, inputs);
    && c.held == left
    && if r.Ok? then
         && c.reply.Ok? && Finishes(c.flow, w.rebind)
         && c.events == r.value.events && c.receipt == Some(r.value.receipt)
       else c.reply == Err(r.error)
  }

  /** In the middle of carrying out what the workflow emitted: `queue` is left of `effects`. */
  ghost predicate Draining(w: World, start: Held, inputs: seq<Input>, c: Course, h: Held, g: Flow, effects: seq<Effect>,
                           queue: seq<Effect>, held: Held, events: seq<WikiEvent>)
  {
    && Legal(w, start, inputs) && CourseOf(w, start, inputs) == Arrive(w, c, h, g, effects)
    && DoAll(w.jobId, w.fits, h, EffectOps(effects)) == DoAll(w.jobId, w.fits, held, EffectOps(queue))
    && c.events + EventsOf(effects) == events + EventsOf(queue)
    && effects != [] && queue != [] && effects[|effects| - 1] == queue[|queue| - 1]
  }

  lemma OpensDraining(w: World, start: Held)
    requires FlowStep(Opening(w, start).flow, Evaluated(w.decision)).Ok?
    ensures var (g, effects) := FlowStep(Opening(w, start).flow, Evaluated(w.decision)).value;
            effects != [] ==> Draining(w, start, [Evaluated(w.decision)], Opening(w, start), start, g, effects,
                                       effects, start, [])
  {
    hide FlowStep, EffectOps, EventsOf;
    var inputs := [Evaluated(w.decision)];
    assert inputs[..0] == [] && CourseOf(w, start, []) == Opening(w, start) && Legal(w, start, []);
    assert EntryOps(start.log, Opening(w, start).flow, Evaluated(w.decision)) == [];
    NothingToDo(w.jobId, w.fits, start);
    var (g, effects) := FlowStep(Opening(w, start).flow, Evaluated(w.decision)).value;
    assert [] + EventsOf(effects) == EventsOf(effects);
    assert CourseOf(w, start, inputs) == Arrive(w, Opening(w, start), start, g, effects);
  }

  lemma DrainQuiet(w: World, start: Held, inputs: seq<Input>, c: Course, h: Held, g: Flow, effects: seq<Effect>,
                   queue: seq<Effect>, held: Held, events: seq<WikiEvent>)
    requires Draining(w, start, inputs, c, h, g, effects, queue, held, events) && |queue| > 1
    ensures var (t, r) := DoAll(w.jobId, w.fits, held, OpsOf(queue[0]));
            var seen := if queue[0].PublishEvent? then events + [queue[0].event] else events;
            if r.Err? then forall report :: report == Err(StoreFailed(r.error)) ==> RunsAs(w, start, inputs, report, t)
            else Draining(w, start, inputs, c, h, g, effects, queue[1..], t, seen)
  {
    hide DoAll, Legal, CourseOf, Reached, EffectOps, EventsOf, OpsOf;
    QueueFirst(queue, events);
    DoAllFirst(w.jobId, w.fits, held, OpsOf(queue[0]), EffectOps(queue[1..]));
  }

  lemma QueueFirst(queue: seq<Effect>, events: seq<WikiEvent>)
    requires queue != []
    ensures |OpsOf(queue[0])| <= 1 && EffectOps(queue) == OpsOf(queue[0]) + EffectOps(queue[1..])
    ensures var seen := if queue[0].PublishEvent? then events + [queue[0].event] else events;
            events + EventsOf(queue) == seen + EventsOf(queue[1..])
  {
    hide EffectOps, OpsOf;
    var rest := EventsOf(queue[1..]);
    if queue[0].PublishEvent? {
      assert EventsOf(queue) == [queue[0].event] + rest;
    } else {
      assert EventsOf(queue) == rest;
    }
    hide EventsOf;
    EffectOpsFirst(queue);
  }

  lemma EffectOpsFirst(queue: seq<Effect>)
    requires queue != []
    ensures |OpsOf(queue[0])| <= 1 && EffectOps(queue) == OpsOf(queue[0]) + EffectOps(queue[1..])
  {
    assert |OpsOf(queue[0])| <= 1;
    hide OpsOf;
  }

  lemma DoAllFirst(jobId: int, fits: Fitting, s: Held, ops: seq<Op>, more: seq<Op>)
    requires |ops| <= 1
    ensures var (t, r) := DoAll(jobId, fits, s, ops);
            DoAll(jobId, fits, s, ops + more) == if r.Err? then (t, r) else DoAll(jobId, fits, t, more)
  {
    hide Do;
    if ops == [] {
      assert ops + more == more;
    } else {
      assert ops == [ops[0]] && (ops + more)[1..] == more;
      DoOne(jobId, fits, s, ops[0]);
    }
  }

  lemma DrainLoud(w: World, start: Held, inputs: seq<Input>, c: Course, h: Held, g: Flow, effects: seq<Effect>,
                  loud: Effect, held: Held, events: seq<WikiEvent>)
    requires Draining(w, start, inputs, c, h, g, effects, [loud], held, events) && !Quiet(loud)
    ensures Legal(w, start, inputs)
    ensures var d := CourseOf(w, start, inputs);
            && d.reply == Ok(()) && d.held == held && d.flow == g && d.events == events
            && (loud.PublishReceipt? ==> d.receipt == Some(loud.receipt))
    ensures loud.PublishReceipt? && Finishes(g, w.rebind) ==>
              RunsAs(w, start, inputs, Ok(RunReport(events, loud.receipt)), held)
  {
    hide Legal, CourseOf, Reached, Finishes;
    LoudOps(loud);
    NothingToDo(w.jobId, w.fits, held);
    assert [loud][1..] == [] && EventsOf([loud]) == [];
  }

  lemma FeedsNext(w: World, start: Held, inputs: seq<Input>, c: Course, input: Input, g: Flow,
                  next: Result<seq<Effect>, WikiError>, left: Held, events: seq<WikiEvent>)
    requires Legal(w, start, inputs) && c == CourseOf(w, start, inputs) && c.reply.Ok? && c.events == events
    requires Answers(w, c.held.log, c.flow, input)
    requires var (h, q) := DoAll(w.jobId, w.fits, c.held, EntryOps(c.held.log, c.flow, input));
             var step := FlowStep(c.flow, input);
             && left == h
             && if q.Err? then next == Err(StoreFailed(q.error)) && g == c.flow
                else if step.Err? then next == Err(WorkflowFailed) && g == c.flow
                else next == Ok(step.value.1) && g == step.value.0
    ensures next.Err? ==>
              forall report :: report == Err(next.error) ==> RunsAs(w, start, inputs + [input], report, left)
    ensures next.Ok? && next.value != [] ==>
              Draining(w, start, inputs + [input], c, left, g, next.value, next.value, left, events)
  {
    hide FlowStep, DoAll, EntryOps, EffectOps, EventsOf, Answers;
    assert (inputs + [input])[..|inputs|] == inputs;
  }

  /** One run as the outside world makes it; `power` says how many log records it lives to write. */
  datatype RunPlan = RunPlan(
    decision: Durability, context: K.Context, requested: Option<ModelBinding>, model: Call -> Answer,
    commit: K.Patch -> Result<TransactionId, CommitError>, power: nat)

  lemma LeadsSomewhere(queue: seq<Effect>, f: Flow)
    requires Leads(queue, f)
    ensures queue != []
  {
  }

  lemma AwaitedIsLoud(effect: Effect, f: Flow)
    requires Awaited(effect, f)
    ensures !Quiet(effect)
  {
  }

  lemma GeneratingTwice(effect: Effect, f: Flow)
    requires Awaited(effect, f)
    ensures f.state == Generating ==> 1 <= f.attempts <= 2
  {
  }

  lemma AwaitedReceipt(effect: Effect, f: Flow, context: K.Context, commits: seq<K.Patch>, before: seq<K.Patch>)
    requires Awaited(effect, f) && effect.PublishReceipt? && Guarded(f, context, before) && before <= commits
    ensures Published(effect.receipt, context, commits)
  {
  }

  /** Generations of one run: no attempt twice for a binding, at most two attempts, at most two bindings. */
  ghost predicate Spaced(generated: seq<Call>, first: ModelBinding, rebind: Option<ModelBinding>) {
    && |generated| <= 4
    && (forall i, j :: 0 <= i < j < |generated| ==> generated[i] != generated[j])
    && forall i :: 0 <= i < |generated| ==>
         1 <= generated[i].0 <= 2 && (generated[i].1 == first || Some(generated[i].1) == rebind)
  }

  /** A receipt that may be reported: a synthesis is of the patch that was accepted and committed. */
  ghost predicate Published(receipt: Receipt, context: K.Context, commits: seq<K.Patch>) {
    && receipt.outcome in {NoOp, WorkflowState.Failed, Synthesized, Pending}
    && (receipt.outcome == Synthesized ==>
          && receipt.patchHash.Some?
          && K.Accepted(receipt.patchHash.value, context) && receipt.patchHash.value in commits)
  }

  lemma NothingSpaced(first: ModelBinding, rebind: Option<ModelBinding>)
    ensures Spaced([], first, rebind)
  {
  }

  lemma Opens(f: Flow, decision: Durability, context: K.Context, commits: seq<K.Patch>, rebind: Option<ModelBinding>)
    requires f == Flow(f.jobId, f.binding, EvaluationPending, 0, None, None, None)
    ensures FlowStep(f, Evaluated(decision)).Ok?
    ensures var (g, effects) := FlowStep(f, Evaluated(decision)).value;
            && Leads(effects, g) && Guarded(g, context, commits) && Bounded([], g, true, rebind, f.binding)
  {
    hide ValidCode, CodeText;
    HonestIsTaken(f, Evaluated(decision));
    StepLeads(f, Evaluated(decision));
  }

  lemma QuietIsNotLast(queue: seq<Effect>, f: Flow)
    requires Leads(queue, f) && Quiet(queue[0])
    ensures |queue| > 1 && Leads(queue[1..], f)
  {
  }

  lemma LoudIsLast(queue: seq<Effect>, f: Flow)
    requires Leads(queue, f) && !Quiet(queue[0])
    ensures queue == [queue[0]] && Awaited(queue[0], f)
  {
  }

  /** The generation just done fits the bound, and is no longer waited for. */
  lemma Generated(before: seq<Call>, generated: seq<Call>, effect: Effect, f: Flow, rebind: Option<ModelBinding>,
                  first: ModelBinding)
    requires Awaited(effect, f) && Bounded(before, f, true, rebind, first)
    requires generated == before + if effect.Generate? then [(effect.request.Attempt(), effect.request.binding)] else []
    ensures Bounded(generated, f, false, rebind, first) && Spaced(generated, first, rebind)
  {
  }

  /** What a run feeds its workflow is guarded. */
  lemma FeedsGuarded(w: World, log: seq<LogRecord>, f: Flow, input: Input)
    requires Answers(w, log, f, input)
    ensures Moves(f, input) && (input.Evaluated? ==> f.state == EvaluationPending)
    ensures input.PatchValidated? ==> f.patch == Some(input.patchHash) && K.Accepted(f.patch.value, w.context)
    ensures input.Committed? ==> f.state == Committing
    ensures input.Rebind? ==> w.rebind == Some(input.binding) && Rebindable(f, w.rebind)
  {
    hide GenerationAnswer;
    AnswersMove(w, log, f, input);
  }

  lemma Advances(f: Flow, input: Input, context: K.Context, commits: seq<K.Patch>, generated: seq<Call>,
                 rebind: Option<ModelBinding>, first: ModelBinding)
    requires Moves(f, input) && !input.Evaluated? && Bounded(generated, f, false, rebind, first)
    requires f.state == Generating ==> 1 <= f.attempts <= 2
    requires input.PatchValidated? ==> f.patch == Some(input.patchHash) && K.Accepted(f.patch.value, context)
    requires input.Committed? ==>
               f.patch.Some? && f.patch.value in commits && f.patchHash == f.patch && K.Accepted(f.patch.value, context)
    requires input.Rebind? ==> rebind == Some(input.binding) && Rebindable(f, rebind)
    ensures FlowStep(f, input).Ok? ==>
              var (g, effects) := FlowStep(f, input).value;
              && Leads(effects, g) && Guarded(g, context, commits) && Bounded(generated, g, true, rebind, first)
              && (if input.Rebind? then !Rebindable(g, rebind)
                  else Rebindable(g, rebind) == Rebindable(f, rebind) && Rank(g) < Rank(f))
  {
    hide FlowStep, K.Accepted, Moves, Bounded, Awaited, Leads;
    if FlowStep(f, input).Ok? {
      StepLeads(f, input);
      BoundedNext(f, FlowStep(f, input).value.0, input.Rebind?, generated, rebind, first);
    }
  }

  lemma BoundedNext(f: Flow, g: Flow, rebound: bool, generated: seq<Call>, rebind: Option<ModelBinding>,
                    first: ModelBinding)
    requires Bounded(generated, f, false, rebind, first)
    requires if rebound then rebind == Some(g.binding) && Rebindable(f, rebind) && f.state != Generating
             && g.state == Generating
             else g.binding == f.binding
    requires g.state == Generating ==> g.attempts == if f.state == Generating then 2 else 1
    requires f.state == Generating && g.state == Generating ==> f.attempts == 1
    requires g.state == Generating ==> rebound || f.state == Generating
    requires g.state != Generating ==> g.attempts == f.attempts
    ensures Bounded(generated, g, true, rebind, first)
  {
  }
}
