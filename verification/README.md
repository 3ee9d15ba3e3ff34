# A model of the durable agent runtime

This project models the part of the repository that must survive crashes and untrusted neighbours, and
proves what it is for. `dafny verify dfyconfig.toml` checks all of it.

| files | what they model |
|---|---|
| `Protocol`, `Requests` | the values the machines exchange, and which requests are valid |
| `Session`, `SessionMachine`, `CommandLaws`, `Replay`, `JournalGrowth`, `JournalInvariant` | the event-sourced session journal: its meaning, the machine that updates it in place, what each command does, and the laws of its logs |
| `Store`, `StoreRecovery`, `RecoveryLaws` | the durable store over the journal, reopening it after a crash, and what recovery can never make of a call |
| `Invocation`, `Budget`, `Driver` | one tool call: its machine, what it may spend, and the queue that journals, executes and publishes |
| `Runtime`, `RunLaws`, `RunOutcomes`, `AgentLoop` | one model turn, and the loop of provider rounds and tool calls from user input to report |
| `CrashSafety`, `StuckStore` | runs, crashes and restarts in any number over one log, and the logs that end them |
| `Migration`, `MigrationRun`, `MigrationRollback` | migrating files under a durable plan, with a crash between any two steps |
| `CivilDate` | the timestamps of migrated sessions |
| `Knowledge` | the guard on knowledge patches |
| `WikiWorkflow`, `WikiLaws`, `WikiStoreLaws`, `WikiCourse`, `WikiDriver`, `WikiCrashes` | the wiki workflow over its log: its machine and store, what its receipts and events tell, what its log keeps, the course of a run, the driver that follows it, and runs after a crash |
| `Sanitize`, `SanitizeLaws`, `Compaction`, `CompactionLaws` | cleaning visible text, and compacting a session into a budget |
| `Cycle` | the search for dependency cycles |

## How it is modelled

- What the source updates in place is a class whose methods are proved equal to a function of the old
  state (`Session`, `Invocation`, `Runtime`, `WikiWorkflow`), or to the property itself; the theorems are
  about those functions, and the methods carry them over.
- Identifiers are integers in the order of the source's ordered maps. Tool names, codes and texts are strings.
  A call's arguments are their length and, when they are a JSON object, its keys.
- Providers, tool adapters, approvals, clocks, cancellation, the model and the commit port are parameters:
  every theorem holds for all of them. The encoded sizes of tool results and of journal records are among them.
- Digests are free, hence injective. Encoded JSON sizes are parameters or counts.
- A crash is a budget of atomic steps (`power` in `Disk` and `WorkflowStore`) or a prefix of the durable log:
  when the budget is used up, every further change is refused, so nothing later can take effect.
- A run of the agent loop is told by where it stands before each round (`Stand`), a wiki run by its course
  (`CourseOf`): what the inputs so far make of machine and disk, computed without the driver. The driver's methods
  are proved to follow them.
- A record id issued by the driver lies above all known ones. Recovery ids are derived
  from what they recover, by a function without collisions (`Derived`); that they are fresh is then proved
  (`RecoveryIsFresh`).

## What the proofs found

- A turn start applies and remembers its record before it builds the request and never looks for a reused
  record id. Such a start leaves the machine ahead of its journal. `LiveEqualsReplay` says that this happens
  exactly then, `RefusedRequestDiverges` and `ReusedIdDiverges` give an input each, and `RuntimeStore.ApplyCommand`
  shows that the store, which adopts only what it journals, is not affected.
- The invocation machine accepts pre-start results that the journal refuses. `MoveSimulated`, `RunSimulated` and
  `CallVerdict` say which: an indeterminate denial, and a rejection after approval. `RefusedByJournal` has both.
- The journal does not check a tool's name on request but does on its result, so a store whose open tool has
  an invalid name cannot be reopened. `Reopen` states it as an equivalence, and
  `Survive` that no log written by agent runs is such a store; `NamelessToolIsStuck` gives a log that is.
- The journal takes no record longer than one MiB, but nothing bounds the text of a turn. Once the text has
  outgrown a line, neither the end of the turn nor its recovery can be journaled: `FinalizeTurn` and `Reopen`
  state when, `KeepRestarting` that no restart ever succeeds again, and `ThreeDeltasAreTooMuch` gives a log.
- A rollback that fails after removing a file can be neither resumed nor re-applied. It need not even die: the
  source root is read only after the files are gone. `ResumeRollback` states when, and `TornRollback` shows it.
- The wiki receipt is written to its file before the log. A crash between the two leaves a file that the log
  does not know. It stays until its own receipt is logged (`CourseKeepsOrphan`), and a run fails with a conflict
  exactly when the first receipt it comes to is another (`ConflictExactly`). `OnePageOrphaned` gives a job that a
  crash leaves so, and that no later run that commits its patch can settle.
- Refused call fragments leave the calls before them pending in the run machine: `RefusalChanges` says that this
  is the one refusal that changes a run, and exactly when, and `RepeatedFragment` shows it. The driver gives the run
  up, so nothing comes of it.
- A timestamp's second may be 60 in any minute and its day is only checked against 31. A leap second reads as the
  first second of the next minute (`LeapSecondTies`), `OrderExactly` says where that breaks the order, and
  31 February 2021 reads as 3 March (`LastOfFebruary`).

## Model

| member | source | states |
|---|---|---|
| Requests.ValidateRequest | crates/protocol/src/runtime.rs:188-252 | accepts a request exactly when its sizes, tool definitions, call/result pairing, limits and output setting are all in order |
| Requests.CheckPairing | crates/protocol/src/runtime.rs:207-243 | one scan accepts exactly the conversations in which no call id repeats, every call is defined and every result answers an earlier call once, under its name |
| Requests.CheckItem | crates/protocol/src/runtime.rs:210-242 | one item is taken exactly when it fits what comes before it and brings no id twice |
| Requests.IndexCalls | crates/protocol/src/runtime.rs:216-228 | a batch is taken exactly when every call is valid, defined and new |
| Requests.IndexTools | crates/protocol/src/runtime.rs:198-206 | tool definitions are indexed exactly when each is valid and no name repeats |
| Requests.PairedStep | crates/protocol/src/runtime.rs:209-243 | a conversation stays paired with one more item exactly when the item fits and its ids are new |
| SessionMachines.SessionMachine.Apply | crates/core/src/session.rs:507-755 | applying a record in place gives exactly the specified journal, and a refused record changes nothing |
| SessionMachines.SessionMachine.Execute | crates/core/src/session.rs:161-419 | every command leaves the state and gives the reply of one step, refusals included; what that step sends, journals and changes is told, command by command, by the laws of commands below |
| SessionMachines.SessionMachine.Begin | crates/core/src/session.rs:421-483 | starting a turn applies and remembers its record before it looks at the request; what the request holds is told by ConversationIsRetold, and when it is sent by StartsExactly |
| SessionMachines.SessionMachine.PersistEnvelope | crates/core/src/session.rs:485-505 | a known identical record is idle, a known different one refused, a new one applied and remembered |
| SessionMachines.SessionMachine.ReplayEnvelope | crates/core/src/session.rs:406-417 | replaying a record skips a known one, refuses a clash, applies a new one |
| SessionMachines.SessionMachine.FromLog | crates/core/src/session.rs:139-147 | replaying a log succeeds exactly when every record applies, and gives the replayed state |
| SessionMachines.SessionMachine.ApplyTerminal | crates/core/src/session.rs:757-787 | a turn ends only while running, for its own request, with every tool closed |
| SessionMachines.SessionMachine.ApplyToolTerminal | crates/core/src/session.rs:670-694 | a tool is closed once, by a valid result of its own name that is legal for how far it got |
| SessionMachines.SessionMachine.ApplyCompaction | crates/core/src/session.rs:706-747 | a compaction is stored only if it covers a completed turn past the previous pointer and retains completed turns up to it |
| SessionMachines.SessionMachine.FindTurnMut | crates/core/src/session.rs:902-916 | finds the first turn with the id, or none |
| SessionMachines.SessionMachine.FindToolMut | crates/core/src/session.rs:918-932 | finds the tool of a turn by call id, or none |
| CommandLaws.ConversationIsRetold | crates/core/src/session.rs:789-830 | the request of a started turn retells exactly the completed turns of the active session, in order, each as its user text and then its assistant text unless that is missing or partial, and puts the new input, or the text of the turn retried, last |
| CommandLaws.StartsExactly | crates/core/src/session.rs:421-483 | a turn starts exactly when nothing runs, its text is not blank, a session is active that has used neither id, and the request is valid; otherwise the error says which failed |
| CommandLaws.RetryNeedsSource | crates/core/src/session.rs:271-292 | a retry is refused if there is no such turn, or busy if anything runs, and otherwise sends that turn's text |
| CommandLaws.EndingTells | crates/core/src/session.rs:247-315 | interrupt, recover and finalize end exactly the running turn they name, with the receipt and the message stated, and leave every other turn alone |
| CommandLaws.EndsExactly | crates/core/src/session.rs:247-315 | a turn is ended exactly when it runs, has no open tool, and a receipt brought along is its own; otherwise nothing happens |
| CommandLaws.ReportTells | crates/core/src/session.rs:316-387 | a report is journaled exactly when the turn it names runs and can be edited so, and edits that turn only; otherwise nothing happens |
| CommandLaws.ResumeTells | crates/core/src/session.rs:192-212 | resuming activates exactly the named session and archives the others, unless something runs or it is unknown |
| CommandLaws.CreateTells | crates/core/src/session.rs:166-190 | a new session is empty, active and the only one that is, unless its id is taken |
| CommandLaws.ToolEditTells | crates/core/src/session.rs:610-694 | a call is decided once before its start, started once after approval, and closed once by a result that is valid, its own and legal for how far it got |
| CommandLaws.TurnEditTells | crates/core/src/session.rs:565-694 | a report on a running turn adds text, adds one open call with a new id, or changes one call, and nothing else |
| CommandLaws.CompactionTells | crates/core/src/session.rs:706-747 | a compaction is stored exactly when it covers a completed turn, retains only turns completed by then, and goes further than the one before; it moves the pointer of its session and nothing else |
| ReplayLaws.ReplayConcat | crates/core/src/session.rs:139-147 | replaying a log in two parts is replaying it whole |
| ReplayLaws.LiveEqualsReplay | crates/core/src/session.rs:161-505 | what a command asks to journal replays to exactly the state it left, if and only if it is not a turn start that reuses a record id or whose request is refused after it was applied |
| ReplayLaws.RunEqualsReplay | crates/core/src/session.rs:139-505 | from any replayed log, any run of commands outside that family ends in the state the longer log replays to |
| ReplayLaws.RefusedRequestDiverges | crates/core/src/session.rs:475-483 | on a replayed log, a concrete turn start (no output tokens) changes the live state and journals nothing |
| ReplayLaws.ReusedIdDiverges | crates/core/src/session.rs:464-483 | on the same log, a turn start under a record id that is taken leaves a state that its own record does not replay to |
| ReplayLaws.RepeatedRecordIsIdle | crates/core/src/session.rs:406-417 | repeating a record already in the log, anywhere later, changes nothing |
| ReplayLaws.DoubledLog | crates/core/src/session.rs:406-417 | appending any earlier part of a log again changes nothing |
| ReplayLaws.ReplayRemembers | crates/core/src/session.rs:406-417 | a replayed log is remembered record by record |
| JournalGrowth.RecordGrows | crates/core/src/session.rs:507-755 | no record replaces a decision, a start or a result, or rewrites a terminal turn |
| JournalGrowth.ReplayGrows | crates/core/src/session.rs:139-147 | over any further log, turns and tools only gain |
| JournalGrowth.TerminalTurnIsFrozen | crates/core/src/session.rs:757-787 | a terminal turn is the same in every later state |
| JournalInvariant.RecordKeepsOk | crates/core/src/session.rs:507-755 | every live record keeps the journal invariant: one running turn, one active session, started implies approved, legal results, closed tools in terminal turns |
| JournalInvariant.StepIsLive | crates/core/src/session.rs:161-419 | what a command journals is a live record |
| JournalInvariant.StepKeepsOk | crates/core/src/session.rs:161-419 | every command keeps the journal invariant |
| JournalInvariant.RunKeepsOk | crates/core/src/session.rs:858-863 | every run of commands keeps the journal invariant |
| JournalInvariant.CompactionAdvances | crates/core/src/session.rs:706-747 | a stored compaction points to a completed turn strictly after the previous one |
| Store.PointersMove | crates/core/src/session.rs:706-747 | over any longer live log a compaction pointer stays as it is or moves to a strictly later turn |
| Store.RuntimeStore.Append | crates/vault/src/runtime/mod.rs:129-150 | a record is refused because the session is finalized, it clashes or does not apply, or it is longer than a line may be; otherwise it is known already, or journaled and adopted; the machine always is what the journal replays to |
| Store.RuntimeStore.ApplyCommand | crates/vault/src/runtime/mod.rs:172-184 | a command runs on a copy and only its journaled record is adopted, so that even a diverging command leaves the store equal to its journal; it succeeds exactly when the machine takes it, the session is not finalized and the record fits a line |
| Store.LiveLogOk | crates/vault/src/runtime/mod.rs:91-127 | a log written by live commands replays, to a journal that keeps the invariant |
| Store.LiveLogPrefix | crates/vault/src/runtime/mod.rs:91-127 | every crash point of such a log is such a log |
| Store.PersistedIsLive | crates/vault/src/runtime/mod.rs:172-184 | a command journals at most one record, live when it is written |
| StoreRecovery.Reopen | crates/vault/src/runtime/mod.rs:91-127 | opening after any crash closes exactly the tools and the turn left open and journals it: each open tool ends without output, indeterminate with effect_unknown if it was started and cancelled with recovered_before_start if not; it fails exactly when a logged record is too long, an open tool has a name no result may carry, or a recovery record, above all the one that carries the draft, does not fit a line; the log on disk afterwards is stated either way |
| StoreRecovery.AppendAll | crates/vault/src/runtime/journal.rs:108-137 | records are written up to the first that does not fit |
| StoreRecovery.RecoverInvocations | crates/vault/src/runtime/recovery.rs:57-125 | closes each open tool as indeterminate if it was started and cancelled if not, in order, with exactly the records stated |
| RecoveryLaws.RecoveryNeverFinishes | crates/vault/src/runtime/recovery.rs:89-106 | however far recovery gets before it dies, no tool that was open has become anything but indeterminate, if it was started, or cancelled, if it was not |
| StoreRecovery.RecoverTurns | crates/vault/src/runtime/recovery.rs:11-55 | ends the one running turn as interrupted, keeping its text as partial |
| StoreRecovery.AbandonedIsRunning | crates/vault/src/runtime/recovery.rs:14-30 | what is listed as abandoned is what the one running turn left |
| Invocation.InvocationMachine.Apply | crates/core/src/tool.rs:149-231 | each pair of state and input is handled in place, and the outcome is the transition whose runs the journal is proved to follow, and which executes only as RunsAsApproved says |
| Invocation.RunsAsApproved | crates/core/src/tool.rs:184-195 | over any accepted inputs a call is executed at most once, as itself, in the one mode that an earlier input approved, and in the restricted sandbox exactly if that mode is Confirm |
| Invocation.TakenExactly | crates/core/src/tool.rs:149-312 | an input is taken exactly when it comes at its time and brings what the call may take there; a refusal says whether it is late, early, for another call or tool, or ill-formed |
| Invocation.ResultIsExplained | crates/core/src/tool.rs:280-367 | every result of a run is explained by the one input that ended it: passed through, refused by decision, or made up by cancel and recover for how far the call had got |
| Invocation.MoveSimulated | crates/core/src/tool.rs:149-366 | from a caught-up journal the effects of an accepted input can be carried out in order if and only if the journal takes the pre-start result, and the journal is caught up again |
| Invocation.RefusedByJournal | crates/core/src/session.rs:934-954 | an indeterminate denial and a rejection after approval: the machine takes them, the journal does not |
| Invocation.RunSimulated | crates/core/src/tool.rs:149-366 | the journal follows a whole run of the invocation machine exactly when it takes every pre-start result of it |
| Invocation.OneTerminal | crates/core/src/tool.rs:280-366 | at most one result is ever persisted, and it is published right after |
| Budget.AgentBudget.ConsumeProviderRound | crates/core/src/tool.rs:462-471 | a round is refused when the time or the rounds are used up, and counted otherwise |
| Budget.AgentBudget.ConsumeToolCall | crates/core/src/tool.rs:473-482 | a call is refused when the time or the calls are used up, and counted otherwise |
| Budget.AgentBudget.ConsumeResultBytes | crates/core/src/tool.rs:484-507 | accepted bytes add up, without overflow, to at most the limit |
| Budget.InvocationRegistry.Register | crates/core/src/tool.rs:412-418 | a call id is registered once |
| ToolDriver.NormalizeDecision | crates/cli/src/driver.rs:1537-1548 | a decision used by the driver is for its call and valid |
| ToolDriver.NormalizePreflight | crates/cli/src/driver.rs:1550-1560 | a denial used by the driver is valid, for its call, and no success |
| ToolDriver.NormalizeExecution | crates/cli/src/driver.rs:1562-1571 | a result used by the driver is valid and for its call |
| ToolDriver.Driver.CompleteInvocation | crates/cli/src/driver.rs:1025-1060 | one call completes exactly when the adapters answer something that can be journaled and each of its records fits a line; the journal then gains exactly those records, budget and result are the straight-line verdict, and the tool ran at most once, after its start was journaled, as itself, in the mode asked for, restricted exactly in Confirm mode |
| ToolDriver.Driver.ApplyEffects | crates/cli/src/driver.rs:1062-1199 | the effect queue terminates, each effect is journaled, executed or published before the next, an execution is carried out in the mode and sandbox that were approved, and the call settles as the verdict says unless a record does not fit |
| ToolDriver.WhenItRuns | crates/cli/src/driver.rs:1025-1199 | a tool runs exactly when nobody stands in the way and budget and time allow it, is charged exactly then, and succeeds only by its own valid result in time |
| ToolDriver.HowItEnds | crates/cli/src/driver.rs:1025-1199 | the decision and the result the journal is to hold, from what the world answers: denied, cancelled, rejected, out of time or calls, interrupted with its effect unknown, too late, too long, ill-formed, or the tool's own |
| ToolDriver.Driver.Deliver | crates/cli/src/driver.rs:1075-1126 | a persisted effect is journaled as the order of events allows, if its record fits; an approved call is then charged and started |
| ToolDriver.Driver.Tell | crates/cli/src/driver.rs:1074-1199 | a report on the running turn is journaled exactly when the turn takes the edit and the record fits a line; otherwise nothing changes |
| ToolDriver.TooLargeBlocks | crates/cli/src/driver.rs:1074-1199 | a record that does not fit is one of the records the verdict calls for, so the call could not have completed |
| ToolDriver.EditPerforms | crates/core/src/session.rs:589-694 | the journal accepts an edit exactly when the order of events allows the effect, and reaches the same progress |
| ToolDriver.Settled | crates/cli/src/driver.rs:1193-1199 | an empty queue means a settled call: published, journaled, and as the verdict said |
| Runtime.RunMachine.Apply | crates/core/src/runtime.rs:70-112 | each input moves the run and emits the effects of one step, whose ends EndIsSaid and whose texts and usage ShowsWhatItTook pin down |
| Runtime.RunMachine.TakeEvent | crates/core/src/runtime.rs:133-246 | a provider event does exactly what the event function says, a refused fragment keeping the ones before it; how an ending event is reported is said by EndSaysHow |
| Runtime.RunMachine.TakeFragments | crates/core/src/runtime.rs:170-212 | complete fragments become pending calls one by one until one is refused |
| Runtime.RunMachine.Finish | crates/core/src/runtime.rs:248-279 | a live run ends with one persisted and published end and one receipt |
| Runtime.RunMachine.Resume | crates/core/src/runtime.rs:281-319 | tools are continued only for the same turn, with a result for every awaited call |
| RunOutcomes.EndIsSaid | crates/core/src/runtime.rs:235-279 | over all inputs the receipt of an ended run says how it ended: completed exactly if the stream completed with no calls waiting, stopped exactly if it stopped, interrupted exactly if it was interrupted, cancelled or shut down, and otherwise failed with the code of the event, case by case |
| RunOutcomes.EndSaysHow | crates/core/src/runtime.rs:235-279 | the input that ends a run decides its outcome, and the provider is aborted exactly when its stream is still open |
| RunOutcomes.ShowsWhatItTook | crates/core/src/runtime.rs:133-160 | what a run publishes is exactly the text and the usage reports it took, in order |
| RunOutcomes.TakesExactly | crates/core/src/runtime.rs:70-130 | which inputs a run takes, input by input, and what it says to every other: busy, misconfigured, not this turn, after the end; going on needs the same turn and an output for every waiting call |
| RunOutcomes.CollectTells | crates/core/src/runtime.rs:161-222 | a batch of fragments is taken call by call, each after those before it, as far as the fragments are good, and the error is that of the first bad one |
| RunOutcomes.FragmentIsItsCall | crates/core/src/runtime.rs:161-222 | a fragment is taken as the call it spells exactly if it is complete, valid, fits the first tool of its name, has an id of its own and is of a tool the runtime knows; it then has the effect of that tool |
| RunOutcomes.UnavailableExactly | crates/core/src/runtime.rs:161-222 | a fragment is refused as unavailable exactly if nothing but its name is wrong |
| RunLaws.RunIsWellRun | crates/core/src/runtime.rs:70-352 | over any inputs: at most one receipt and nothing persisted or published after it, the ids of the request that began the run, usage equal to the capped sum of all reports, and persisted events equal to published ones |
| RunLaws.EndIsFinal | crates/core/src/runtime.rs:106-110 | a finished run says nothing more and keeps its receipt |
| RunLaws.TotalUsageStep | crates/core/src/runtime.rs:337-352 | merging one report into a total gives the total of all reports |
| RunLaws.RefusalChanges | crates/core/src/runtime.rs:145-213 | a refused input changes a run if and only if it is a batch of fragments, to a run with tools, whose first fragment is good |
| RunLaws.RepeatedFragment | crates/core/src/runtime.rs:145-213 | the same good fragment twice is refused, and its call is pending all the same |
| AgentLoop.RunAgent | crates/cli/src/driver.rs:724-751 | on any sound store: an input that starts no turn changes nothing, for the reason stated; a turn that was started is delivered, or fails for a reason stated where the failing round stood: its conversation, spending, next record id and every input the run was fed; a delivered report says how its run ended, by the event that ended it; the store stays sound either way |
| AgentLoop.DriveAgent | crates/cli/src/driver.rs:885-1023 | the loop terminates within the round limit, executes no more tools than the call limit, keeps the conversation paired and answered, and delivers its report unless one of these holds where the last round stood: bad limits or request, a badly asked call, a call that cannot go, whose error is the one returned, a conversation too large, or a record that does not fit; where it stood is computed from the rounds before; the outcome reported is completed exactly if the last stream completed, stopped, interrupted or cancelled likewise, and otherwise fails with the code of that event or of the budget |
| AgentLoop.DriveRounds | crates/cli/src/driver.rs:911-1022 | the loop itself: the same bounds and reasons, from an opened run; each round that goes on takes the run exactly where the round and its call outcomes say |
| AgentLoop.OneRound | crates/cli/src/driver.rs:955-1017 | after a round the run has ended, or its calls are completed and it runs again with exactly the conversation, spending and record id that their outcomes make; it fails only for a reason the round itself gives, at the spending and record id it began with |
| AgentLoop.ToolRound | crates/cli/src/driver.rs:972-1017 | the continued request is refused only for its size, and the run never refuses it; otherwise the round ends where its call outcomes say, or with the error of the first call that cannot go |
| AgentLoop.RunCalls | crates/cli/src/driver.rs:974-988 | results, spending, next record id and error are exactly those of the calls taken one after another, the first that cannot go deciding the error; each result returned is the one the journal holds, and every execution is paid for |
| AgentLoop.RunCall | crates/cli/src/driver.rs:975-988 | a call fails exactly when its id was used before or it is blocked, with the error that says which; otherwise result, spending and record id are those of its verdict |
| AgentLoop.StreamRound | crates/cli/src/driver.rs:1201-1281 | after a stream the run is never running; only a badly asked call or a record that does not fit stops it, at the run state and record id that the events before it make, and the calls then awaited are those the events asked for |
| AgentLoop.ApplyInput | crates/cli/src/driver.rs:1295-1415 | effects are carried out in order: text is journaled before it is shown, and the end of a run, which meets no open tool, is journaled with the text shown; this fails exactly when the run refuses the input or the one record it writes does not fit |
| AgentLoop.WritingPoint | crates/cli/src/driver.rs:1295-1415 | an input makes the driver write at most one record: its text first, or the end of the turn |
| AgentLoop.StartTurn | crates/cli/src/driver.rs:733-749 | a turn starts exactly when the machine takes the input, the session is open and the record fits; otherwise the store stays as it is |
| AgentLoop.ToolsForKeeps | crates/cli/src/driver.rs:592-600 | with full access every tool is offered to the model, otherwise all but the two shell tools, in the same order |
| AgentLoop.FinalizeTurn | crates/cli/src/driver.rs:1391-1399 | the final command ends the running turn with the receipt and the whole text exactly when that record fits a line; otherwise the turn goes on running |
| AgentLoop.BatchKeepsAnswered | crates/cli/src/driver.rs:990-1002 | a round of calls and their results keeps the conversation paired and fully answered |
| AgentLoop.ContinueAccepted | crates/core/src/runtime.rs:281-319 | a valid request of the same turn with all results is never refused |
| AgentLoop.ValidUnlessTooLarge | crates/protocol/src/runtime.rs:188-252 | a longer paired conversation is invalid only by message count or message size |
| AgentLoop.RunStepFits | crates/core/src/runtime.rs:145-213 | a run collects only calls that fit its request, and awaits tools only when it has some |
| AgentLoop.VerdictAnswers | crates/cli/src/driver.rs:1025-1199 | a completed call answers itself, and an execution costs one tool call |
| AgentLoop.ContinueStarts | crates/core/src/session.rs:421-483 | an accepted Continue starts a turn of the active session with a request of plain messages |
| Migration.OperationForPlan | crates/cli/src/migration.rs:1373-1400 | the operation splits the plan into files to create and files to reuse, and refuses a collision |
| Migration.ClassifyTargets | crates/cli/src/migration.rs:1289-1315 | each artifact is classified against the file that is there |
| Migration.Disk.Create | crates/cli/src/migration.rs:1938-1959 | a data file is created only where there is none |
| MigrationRun.VerifyTargets | crates/cli/src/migration.rs:1434-1450 | verification passes exactly when every target has its recorded length and digest |
| MigrationRun.RollbackCreated | crates/cli/src/migration.rs:1460-1478 | removes, last first, only owned files that are intact, as many as the power allows, and refuses a changed one |
| MigrationRun.Recover | crates/cli/src/migration.rs:1480-1519 | undoes an interrupted run of the same plan; it refuses records that are not its own exactly then, and untouched |
| MigrationRun.EnsureOwnership | crates/cli/src/migration.rs:1521-1554 | plan and operation are durable before anything is published, are the expected ones, and no record that is there is overwritten |
| MigrationRun.LoadOwnership | crates/cli/src/migration.rs:1556-1575 | loads plan and operation exactly when both are readable and agree |
| MigrationRun.Stage | crates/cli/src/migration.rs:471-476 | stages exactly the artifacts |
| MigrationRun.Publish | crates/cli/src/migration.rs:478-513 | publishes the created files in order, checks every target, then writes the receipt |
| MigrationRun.Install | crates/cli/src/migration.rs:469-525 | from a fresh plan it finishes, or loses power and leaves a migration in progress |
| MigrationRun.Apply | crates/cli/src/migration.rs:438-525 | a plan that is not whole, not confirmed by its hash or has collisions is refused with nothing changed; a receipt that is there is checked and returned with nothing changed; otherwise success means the plan is what its source makes of the files as they are once an interrupted run is undone, and all artifacts are in place under its receipt, and each failure is for the reason stated; only absent files are created and only intact created files removed; a disk left by runs that lost power is finished, given a bounded number of steps |
| MigrationRun.ValidMeans | crates/cli/src/migration.rs:1328-1371 | plan, operation and receipt are taken exactly if they are of this version, hash to what they say, and own only the three files a migration may own, each once |
| MigrationRun.PlanTells | crates/cli/src/migration.rs:594-683 | a plan tells of each artifact, in order, whether nothing, the same bytes or another file is in its place, and lists exactly the latter as collisions, with both digests |
| MigrationRun.ReceiptTells | crates/cli/src/migration.rs:489-512 | a receipt lists exactly what the plan creates and what it reuses, and names the plan and its source |
| MigrationRun.FreshOwns | crates/cli/src/migration.rs:1328-1349 | a plan built for a source is valid and owns distinct allowed files |
| MigrationRun.PublishedIsUnique | crates/cli/src/migration.rs:438-525 | there is only one set of files in which a migration is finished |
| MigrationRun.PublishedIsIntact | crates/cli/src/migration.rs:1434-1450 | verification of all targets means exactly that every artifact is in place |
| MigrationRollback.ApplyThroughCrashes | crates/cli/src/migration.rs:438-525 | after any crashes, a run with enough power, which the plan, the source and the first staging folder bound, ends with the receipt and files of a run that never died; one more run changes nothing |
| MigrationRollback.CompleteIsUnique | crates/cli/src/migration.rs:438-525 | two finished runs have the same files and the same receipt |
| MigrationRollback.Rollback | crates/cli/src/migration.rs:557-592 | refused, with nothing changed, exactly if the receipt is invalid, unconfirmed or not of the records on disk, and for that reason; a rollback already recorded is returned; otherwise it removes only when every target is in place, and as many files as the power allows, and succeeds exactly with power for one record more and a readable source |
| MigrationRollback.ApplyThenRollback | crates/cli/src/migration.rs:557-592 | applying and then taking back restores the files exactly, reused ones included; each of the two succeeds whenever it has the stated power |
| MigrationRollback.ResumeRollback | crates/cli/src/migration.rs:571-580 | a rollback that fails after removing a file, by dying or because the source cannot be read any more, can be neither resumed nor re-applied, and it has removed one exactly when it had any power and the plan any file to remove; otherwise another rollback with power enough restores the files |
| MigrationRollback.TornRollback | crates/cli/src/migration.rs:577-592 | one file migrated and taken back by a rollback that dies, or whose source is gone: nothing gets anywhere any more |
| CivilDate.EpochIsZero | crates/cli/src/migration.rs:2298-2312 | the first of January 1970 is day 0 |
| CivilDate.NextDayIsOneMore | crates/cli/src/migration.rs:2298-2312 | from each valid date to the next the day number grows by one, in every year |
| CivilDate.NthDayIsNumberN | crates/cli/src/migration.rs:2298-2312 | the n-th day after the epoch, counted one by one, has number n |
| CivilDate.DayNumberOrders | crates/cli/src/migration.rs:2298-2312 | day numbers order valid dates as the calendar does |
| CivilDate.MillisAre | crates/cli/src/migration.rs:2254-2272 | a fraction of a second, of any number of digits, is read as whole milliseconds, rounded down |
| CivilDate.ReadExactly | crates/cli/src/migration.rs:2230-2288 | a timestamp is read exactly if it has the shape, its fields are in range and it is not before the epoch, and no date of four digits overflows; its value is the day number and the time of day |
| CivilDate.TextReadsBack | crates/cli/src/migration.rs:2230-2288 | a written timestamp reads back as its instant, or is refused before the epoch |
| CivilDate.TimestampsOrder | crates/cli/src/migration.rs:2230-2288 | of two timestamps that are not leap seconds, the one that reads lower is the earlier one, to the millisecond |
| CivilDate.OrderExactly | crates/cli/src/migration.rs:2230-2288 | leap seconds included, an earlier timestamp reads lower exactly unless both read as the same second and its fraction is no smaller; then it is a leap second |
| CivilDate.LeapSecondTies | crates/cli/src/migration.rs:2249-2252 | a leap second of any minute reads as the first second of the next |
| CivilDate.PastMonthEnd | crates/cli/src/migration.rs:2244-2312 | a day past the end of its month is read as a day of the next one |
| CivilDate.LastOfFebruary | crates/cli/src/migration.rs:2230-2312 | the thirty-first of February 2021 is read as the third of March |
| Knowledge.Validate | crates/core/src/knowledge.rs:183-288 | accepts exactly the patches that fit the pages they start from and leave the truth whole; the projection is plain patch application; a refusal names the first thing wrong: shape, job, size, pages before, each operation in turn (content, sources, target), pages after |
| Knowledge.AcceptedTells | crates/core/src/knowledge.rs:183-288 | every operation of an accepted patch creates a page whose id and place are free, or changes or removes one that is as it expects, keeping its topic; each page is well formed, breaks no content rule and cites 1 to 64 pieces of known evidence, each once, with its hash |
| Knowledge.OneFault | crates/core/src/knowledge.rs:183-288 | a refused patch is refused for exactly one reason, whatever the pages |
| Knowledge.TakeOperation | crates/core/src/knowledge.rs:213-284 | an operation is taken exactly when its path is new among the operations and it fits the starting pages, and a refusal names its first fault; paths stays the inverse of the projection |
| Knowledge.ValidateInitialPages | crates/core/src/knowledge.rs:607-617 | accepts exactly the page sets with unique ids and paths that are truthful |
| Knowledge.ValidateTruth | crates/core/src/knowledge.rs:619-649 | accepts exactly one current page per topic and only direct supersession within a topic; the error says which is broken |
| Knowledge.ValidateSources | crates/core/src/knowledge.rs:651-664 | accepts exactly citations of known evidence with its hash; the error is that of the first other one |
| Knowledge.ValidatePatch | crates/protocol/src/knowledge.rs:241-256 | accepts exactly 1 to 32 valid operations on distinct pages |
| Knowledge.OneCurrentPage | crates/core/src/knowledge.rs:619-649 | every topic that has a page has exactly one current page |
| Knowledge.AppliedAt | crates/core/src/knowledge.rs:212-285 | each page of the result is its own operation's, or the one from before |
| Knowledge.AppliedIsKeyed | crates/core/src/knowledge.rs:212-285 | fitting operations keep ids and paths unique |
| Knowledge.OrderDoesNotMatter | crates/core/src/knowledge.rs:212-287 | any order of the operations is accepted or refused alike and makes the same page set |
| Knowledge.CommitPatch | crates/cli/src/wiki.rs:649-674 | a removal is refused; otherwise the files keyed by path stay the projection keyed by id |
| WikiWorkflow.MainModelWikiWorkflow.Apply | crates/core/src/knowledge.rs:367-605 | each input moves the workflow in place by one step, or is refused without change; what its usage, events and receipts say is pinned by UsageIsTotal, StepSaysCost and ReceiptTells |
| WikiLaws.UsageIsTotal | crates/core/src/knowledge.rs:466-500 | over every run of inputs the usage is, field by field, the capped sum of what the answers taken since the start or the last rebind reported, and absent if none did |
| WikiLaws.StepSaysCost | crates/core/src/knowledge.rs:558-605 | each event and receipt of a step tells that total under the current binding |
| WikiLaws.ReceiptTells | crates/core/src/knowledge.rs:514-605 | the receipt of a run of the driver tells how it ended, by the input that ended it, and all that it cost |
| WikiLaws.EventsTell | crates/core/src/knowledge.rs:558-580 | every event a run publishes tells the cost of the answers so far |
| WikiWorkflow.WorkflowStore.Append | crates/vault/src/workflow.rs:277-303 | a record that is already there is not written again, one too long for a line never is, and one more step of power is spent only on what is written |
| WikiWorkflow.WorkflowStore.AppendReceipt | crates/vault/src/workflow.rs:240-265 | the receipt file is written first and the log second; only a pending receipt gives way to another, and a file the log knows nothing of gives way to none |
| WikiWorkflow.WorkflowStore.AppendRebind | crates/vault/src/workflow.rs:267-275 | a job is bound to another model at most once |
| WikiStoreLaws.WriteTells | crates/vault/src/workflow.rs:203-303 | what a write to a kept log refuses and why: a conflict exactly if another outcome of the same call, another rebind, a settled receipt or an unknown receipt file stands against it; otherwise the record is in the log, a receipt's file first |
| WikiStoreLaws.StaysKept | crates/vault/src/workflow.rs:203-303 | whatever is written, in any order and with the process dying anywhere, the log only grows, holds no record twice, one outcome for a call, one rebind, and no receipt after a settled one |
| WikiCourse.StepLeads | crates/core/src/knowledge.rs:367-605 | what the driver feeds in leads to one awaited effect and brings the workflow nearer its end |
| WikiCourse.StepCosts | crates/core/src/knowledge.rs:367-605 | each step of the workflow leaves less to write than there was, what the generation itself writes included |
| WikiCourse.CourseCosts | crates/cli/src/wiki.rs:377-496 | over a whole run the power spent and the work left stay within 23 steps, so no run with that power dies |
| WikiCourse.CourseIsHonest | crates/cli/src/wiki.rs:377-570 | on a log of outcomes the driver could have written the workflow refuses nothing, and the log stays one |
| WikiCourse.RefusalIsNamed | crates/vault/src/workflow.rs:277-303 | a run that stops for want of room has met one of the records it writes itself, new and too long for a line |
| WikiCourse.ConflictExactly | crates/vault/src/workflow.rs:240-265 | a run ends in a conflict if and only if a receipt file lies there that the log knows nothing of and the first receipt the run comes to is another |
| WikiCourse.CourseKeepsOrphan | crates/vault/src/workflow.rs:240-265 | whatever a run is fed and wherever it dies, such a file stays until its own receipt is logged |
| WikiDriver.WikiDriver.GenerationInput | crates/cli/src/wiki.rs:498-570 | a logged outcome is what is returned; a call logged without outcome is taken as lost, which is logged; otherwise the call is logged, made once, and its judged answer logged and returned; log, power, calls and errors are exactly those |
| WikiDriver.WikiDriver.RunWorkflow | crates/cli/src/wiki.rs:377-496 | the effect loop terminates with at most four generations, none twice and at most two for a binding; the missing receipt is unreachable; a synthesis is of the patch that was accepted and committed; log, receipt file, report and error are exactly those of the course that its inputs make; the receipt tells how the run ended and the total of what its answers cost |
| WikiDriver.RebindIsAsked | crates/cli/src/wiki.rs:357-365 | a run works with the model it is asked to, and else with the one its log was rebound to, if any |
| WikiDriver.ReportTells | crates/cli/src/wiki.rs:377-496 | the report of a successful run tells the capped total of what its answers cost, in its receipt and, so far, in every event |
| WikiDriver.RunsWell | crates/cli/src/wiki.rs:377-496 | with 23 steps of power and room for each record of its own a run on an honest log succeeds if and only if it does not clash with an orphaned receipt file, and at any power a conflict is that clash |
| WikiDriver.WikiDriver.Run | crates/cli/src/wiki.rs:344-496 | a settled job returns its receipt without another call or record, a rebind is logged before the run, and any other job is worked on from its log: outcome and disk are exactly stated for every case |
| WikiDriver.WikiDriver.RunThroughCrashes | crates/cli/src/wiki.rs:344-570 | over any runs that die anywhere the model is never called twice for one attempt with one binding, and an orphaned receipt file stays until its receipt is logged |
| WikiCrashes.BlockedConflicts | crates/vault/src/workflow.rs:240-265 | a run that would synthesize beside an orphaned pending receipt fails, with a conflict if it lives long enough, and leaves the job as blocked as it was |
| WikiCrashes.UnluckyRun | crates/cli/src/wiki.rs:377-496 | a fresh run whose commit is unavailable and whose power ends after eight steps leaves its receipt in the file and not in the log |
| WikiCrashes.OrphanedReceipt | crates/cli/src/wiki.rs:344-496 | after such a run every later run that would synthesize fails, however many there are |
| WikiCrashes.OnePageOrphaned | crates/cli/src/wiki.rs:344-496 | the concrete case: a patch of one page, one unavailable commit, and any number of reruns that all end in the conflict |
| Sanitize.StripTagBlocks | crates/core/src/compaction.rs:258-278 | the loop terminates and strips as specified |
| Sanitize.StripRemoves | crates/core/src/compaction.rs:258-278 | no opening of the tag is left, in any letter case |
| Sanitize.StripAddsNothing | crates/core/src/compaction.rs:247-249 | stripping one tag never makes another appear |
| Sanitize.BlockIsCut | crates/core/src/compaction.rs:263-276 | exactly the first block goes, and a space stands in its place |
| Sanitize.RedactSecrets | crates/core/src/compaction.rs:280-305 | the loop blanks each sensitive word and each word after a bearer mark |
| Sanitize.SanitizeVisible | crates/core/src/compaction.rs:245-256 | cleaning is the three strips, the joining of words, redaction and the size limit |
| Sanitize.SanitizedHasNoTags | crates/core/src/compaction.rs:245-305 | sanitised text opens none of the three private tags |
| SanitizeLaws.NothingPrivateStays | crates/core/src/compaction.rs:245-330 | of sanitised text nothing private is left: no private tag opens in it, it has none of the thirteen marks of a secret in any letter case, no word that looks random, nothing after a bearer mark, no private key, and it fits an entry |
| SanitizeLaws.BlankedExactly | crates/core/src/compaction.rs:280-330 | a word is blanked exactly if a kept bearer mark stands before it, or it is no bearer mark itself and has a mark of a secret or looks random |
| Sanitize.SanitizedTwice | crates/core/src/compaction.rs:245-305 | sanitising what was sanitised returns it unchanged |
| Sanitize.CleanTextIsKept | crates/core/src/compaction.rs:245-305 | text with nothing private in it is stored as it stands, spacing apart |
| Compaction.SettleIsExact | crates/core/src/compaction.rs:226-243 | four rounds always end on an estimate that is exact for the record it is part of |
| Compaction.StabilizeAfterEstimate | crates/core/src/compaction.rs:226-238 | the estimate is updated until it stands, at most four times |
| Compaction.FitRecord | crates/core/src/compaction.rs:207-224 | the loop terminates with the specified record or error |
| Compaction.FitIsFirst | crates/core/src/compaction.rs:207-224 | the fitted record is the first of the drop chain that fits, with an exact estimate, and every longer one was too large |
| Compaction.DropsInOrder | crates/core/src/compaction.rs:216-221 | entries go strictly in the order open items, decisions, constraints, and nothing else changes |
| Compaction.Exchanges | crates/core/src/compaction.rs:52-74 | the exchanges are those of completed turns that are answered in full and not empty once cleaned, in order |
| Compaction.Categorize | crates/core/src/compaction.rs:132-149 | at most four messages of a category, first or last, each once |
| Compaction.SelectedOnce | crates/core/src/compaction.rs:133-139 | what is selected are all messages of the category, no two alike |
| Compaction.Compact | crates/core/src/compaction.rs:44-116 | the compacted record is the draft of the exchanges, fitted, exactly when there is room, every text is short enough, and something to compact; otherwise the error of the first check that fails; what the draft holds is told by RecordTells |
| CompactionLaws.RecordTells | crates/core/src/compaction.rs:44-116 | a compacted record covers the last exchange; its goal is the first user text; it keeps the first four constraints and the last four decisions and open items, less what did not fit, dropped from the ends in that order; then the last exchanges up to the budget; and its estimates are a quarter of the bytes there were and of its own |
| CompactionLaws.RecordBytesAre | crates/core/src/compaction.rs:207-238 | the size that fitting reckons with is the length of the JSON text of the strings and of the decimal estimate |
| CompactionLaws.SettlesExactly | crates/core/src/compaction.rs:226-243 | the estimate of its own size settles exactly when that size stays within a machine word the first two times |
| CompactionLaws.GivesUpExactly | crates/core/src/compaction.rs:52-74 | compaction gives up on the session exactly if some finished exchange has a text too long to clean |
| CompactionLaws.SelectedIsChosen | crates/core/src/compaction.rs:132-149 | the messages of a category are exactly the first occurrences of those that match it, in order |
| Compaction.CompactedIsStored | crates/core/src/session.rs:706-747 | the journal takes a compacted record exactly when no pointer stands in the way: none, or another compaction of a known earlier turn |
| CycleSearch.CycleFinder.FindCycle | crates/compat-harness/src/architecture.rs:475-501 | the search terminates; it comes back with nothing only when the package and all it needs are in order, and otherwise with the names, in order, of the two ends of one step of a cycle |
| CycleSearch.ValidateNoCycle | crates/compat-harness/src/architecture.rs:459-473 | accepts exactly the dependency graphs without a cycle; a refusal names the two packages of one step of a cycle |
| CycleSearch.OrderedIsAcyclic | crates/compat-harness/src/architecture.rs:459-501 | no cycle goes through packages that come after everything they depend on |
| CrashSafety.Survive | crates/vault/src/runtime/mod.rs:91-127 | over any number of runs and restarts, each cut off anywhere, every restart succeeds exactly when the recovery records of each log found fit a line; nothing that any restart found is ever undone, no tool open at a crash ever becomes succeeded, failed or rejected, and when all goes well nothing is left open |
| CrashSafety.Restart | crates/vault/src/runtime/mod.rs:91-127 | what any crash leaves of a log the program wrote can be reopened exactly when its recovery records fit, and the log that results is again such a log |
| CrashSafety.LiveThenCrash | crates/cli/src/driver.rs:724-751 | a run that dies anywhere leaves a log that continues the earlier one and that the next restart starts from |
| CrashSafety.NamesAgree | crates/core/src/session.rs:593-607 | the tools of a replayed journal have valid names exactly when every request in its log named one |
| CrashSafety.LogSettles | crates/vault/src/runtime/recovery.rs:44-51 | what a log has closed is closed in the journal it replays to |
| CrashSafety.RecoveryIsFresh | crates/vault/src/runtime/recovery.rs:79-87 | the ids derived for recovery are never in use while what they close is still open |
| StuckStore.OvergrownCannotEnd | crates/vault/src/runtime/journal.rs:108-117 | a turn whose draft is longer than a line can be ended neither by the driver nor by recovery |
| StuckStore.KeepRestarting | crates/vault/src/runtime/mod.rs:91-127 | a store with such a draft is never opened again, however often it is tried |
| StuckStore.ThreeDeltasAreTooMuch | crates/vault/src/runtime/journal.rs:10-117 | a log of three deltas: every record fits, and the store can never be opened again |
| StuckStore.NamelessToolIsStuck | crates/core/src/session.rs:593-607 | the journal takes the request of a tool with no name, and the store cannot be reopened |

## Left out

- HTTP, SSE, credentials, channels and the async runtime: a round is a finite list of events and how the stream ended; the loop that reads events while the provider runs and the one that drains them afterwards are one loop.
- Trace records, shell receipts and provider-connected traces that the driver appends beside the commands it sends.
- The plain prompt path (`run_prompt`, `retry_turn` through `drive_request`), session listing and permission switching in the driver.
- Runtime indexes, leases, file locks, I/O errors and torn writes of the stores (a record refused for its length is modelled); saturation of the driver's id counter.
- Directories, symbolic links, canonical paths, locks, size bounds and the syntax of ids and digests in migration; the normalisation of the TypeScript source, whose result is a parameter; the target schema name; `verify_migration`, which only reads.
- Record folders of other migrations: each migration has its own, and the data files another one changes count as outside edits.
- JSON text of patches and pages: a page keeps whether it is well formed and which content rule it breaks.
- The durability gate, the transactional wiki writer behind the commit port, and rendering of pages and index.
- The keyword lists of compaction categories, which are a parameter.
- Terminal interface, command line, exact index, stream sequence and the rest of the compatibility harness: plumbing or fixed checks.
- StoreRecovery.Reopen: one clock value stands for the readings the recovery takes one after another.
- Migration.Disk.Create: a write is one atomic step, so a partly written file is not modelled.
- Sanitize.SanitizeVisible: of Unicode lower case only the characters that matter to ASCII patterns are modelled.
- Compaction.Compact: the encoded bytes of what fitting never touches are a parameter; of the rest the JSON text itself is counted.
- Session.Step: the source's five commands that record a delta or a tool event are one `Report` command with five cases.
- CrashSafety.Survive: a life is one request; compaction and trace records between requests are not part of it.
