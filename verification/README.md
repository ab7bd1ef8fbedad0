# Spork in Dafny

Spork is a mail-triage daemon that can be stopped or can crash at any moment and must neither lose a
message nor act on it twice. This project models its behaviour and proves what its design promises.

How the model is put together:

- **Effects.** Everything a run does that can be seen from outside, a commit to the database or a call
  to the mail backend, the model, the alerter, is one `Effect` (`Model`). The database is what replaying
  the effects makes of it (`StateDb`), so a crash between two commits is a prefix of the effects.
- **Pipelines.** `Pipelines` gives the recursive tree of stages, selectors and routes a meaning with
  state and exceptions, and an interpreter written as the original's loop. `Tracing` wraps it.
  `Tier1` and `Tier2` build the two concrete trees, and prove each equal to a closed form (`Process`,
  `Process2`); `Tier2Wiring` checks the second tree's fields, `Escalate` adds the quarantine boundary,
  `RunFacts` says what any single run can do, and `Verdicts` what a model's answer leads to.
  `RuleEngine`, `BodyCleaning` with `BodyMarkers`, and `Receipts` are the algorithms the stages call.
- **Mail.** `Mailbox` is the server's change log and what it means to deliver a stretch of it; `Jmap`
  is the paging fetch, the push trigger, and the two sources that share a cursor.
- **The daemon.** `Daemon` is the state machine: loop steps, control-plane handlers that run between
  any two of them, arriving mail, crashes, restarts. `DaemonLoop` is the loop itself, with its shared
  mutable state; it is proved against `LoopSpec`, and every run of it is proved to be a run of the machine.
  `DaemonRuns`, `RunHistory`, `Modes`, `CursorSafety`, `CursorGaps`, `LoopSafety`, `ControlPlane`,
  `BoundedEffects`, `BudgetBound`, `SharedBudget`, `DailyAlert` and `AlertReturns` prove the properties of
  whole runs. For that the machine remembers every acknowledged poll, every run that is over and every process life that is
  over; each life observes or acts, as it was started. `Scenarios` holds the pieces of the concrete runs,
  and `Interleavings` shows that handlers and commits may be put in any order.
- **Beside the daemon.** `Backfill` and `BackfillSkips`, `TomlText` and `RulesFile`, `ConfigMerge`,
  `Entities`, `SmtpSink`.

Where the code and its documentation part, the model follows the code:

- A crash is promised to lose nothing, because the next poll brings the message back. It does not bring
  back a message that has left the Inbox, and the message's own `move` makes it leave: a crash after the
  action and before the mark leaves a message acted on and never recorded, with the cursor past it
  (`CursorGaps.MoveLeavesOneBehind`). `CursorSafety.LeftBehindExactly` says which messages are left
  behind, and every message of a batch that lives that act have acknowledged is processed
  (`CursorSafety.CursorSafety`).
- In observe mode an escalated message is audited but not marked, and the cursor still moves past it, so
  that a later life that acts never sees it (`CursorGaps.ObserveLeavesOneBehind`,
  `CursorGaps.DeliveredProcessedExactlyWhenNotObserving`).
- A pause or resume is promised its audit entry with the next iteration of the loop. Calls pending or
  captured when a life ends, be it by a clean stop, never get one (`ControlPlane.CleanStopLosesACall`), and
  these are the only ones that do not (`ControlPlane.ControlPlaneOverLives`).
- The rules writer leaves control characters unescaped, so its round trip, promised without a
  condition, holds exactly without them (`RulesFile.RoundTrip`).
- A known receipt sender goes to the model again for a message without a date
  (`Receipts.DatelessAlwaysExtracts`).
- Truncation is bounded only for a limit that is not negative. A cleaned body may begin with a quote
  marker that the final strip has uncovered, exactly if the text begins one after its leading blanks
  (`BodyMarkers.CleanBodyMarkers`).
- A quarantined message may have been acted on: exactly if the applier, or an alert or a draft after it,
  raises one of the errors that quarantine catches (`RunFacts.QuarantineUncleanExactly`).
- The company found for a domain of the knowledge base is its owner exactly if no later company folds to
  the owner's name (`Entities.OwnerFoundExactly`).
- A date is alerted once exactly if the dates at which the budget was found used up never return
  (`DailyAlert.AlertedAtMostOnceADay`, `AlertReturns.AlertComesBack`).
- A backfill is built without the receipt components, so that a rule that archives receipts ends it
  (`Backfill.BackfillActs`).
- A backfill passes over as many messages as it moves out of the mailbox it pages through
  (`BackfillSkips.SkipsWhatItMoves`).

Collaborators (clock, id generator, model, mail backend, alerter, classifier, PDF archive) are
parameters: an environment record says what each answers or raises in a run, and every theorem holds
for all of them. Numbers compared with thresholds are reals; a threshold that is not a number is a
value of its own.

## Model

| member | source | states |
|---|---|---|
| StateDb.StateDB.GetCursor | src/spork/core/state/db.py:143-150 | the stored cursor of the account, or none if it has none |
| StateDb.StateDB.SetCursor | src/spork/core/state/db.py:152-160 | upserts one account's cursor, nothing else, as one commit point |
| StateDb.StateDB.HasProcessed | src/spork/core/state/db.py:164-174 | true exactly for the ids that have a row |
| StateDb.StateDB.MarkProcessed | src/spork/core/state/db.py:176-212 | upserts the message's row, nothing else, as one commit point |
| StateDb.StateDB.WriteControlPlaneAuditEntry | src/spork/core/state/db.py:232-249 | appends a row with the empty message id; rows are never changed |
| StateDb.StateDB.RecordLlmCall | src/spork/core/state/db.py:268-292 | refuses negative token counts without a write, otherwise adds one call and its tokens, each kind to its own total, to that date, and leaves every other date alone |
| StateDb.StateDB.GetLlmUsage | src/spork/core/state/db.py:294-308 | a date without a row counts as no use |
| StateDb.UsageIsWhatWasRecorded | src/spork/core/state/db.py:268-308 | over any history: a date's calls and its two token totals are what they were at first and what was recorded under that date since |
| StateDb.StateDB.LearnKnownSender | src/spork/core/state/db.py:327-350 | upserts one sender, nothing else, as one commit point |
| StateDb.StateDB.PerformAll | src/spork/core/state/db.py:102-127 | performing effects one by one leaves the database their replay gives |
| StateDb.ReplayConcat | src/spork/core/state/db.py:102-127 | what two stretches of effects leave is what they leave together: a restart sees only the log |
| Pipelines.RunChain | src/spork/core/pipeline/core.py:131-135 | the loop over the stages performs on the live database exactly the denotation of the stages, up to the stage that raises |
| Pipelines.RunPipeline | src/spork/core/pipeline/core.py:129-148 | the imperative interpreter has the result, the exception and the effects of the denotation, for every tree |
| Pipelines.WiredIsSound | src/spork/core/pipeline/core.py:129-148 | a tree whose plan passes the static check never raises a missing-field or unknown-branch error, on any payload |
| Pipelines.WiredIsExact | src/spork/core/pipeline/core.py:129-148 | the check is exact: a plan passes if and only if no tree it describes can ever raise such an error |
| Pipelines.CulpritFaults | src/spork/core/pipeline/core.py:138-147 | for every plan that does not pass there is a tree of that plan that does raise one |
| Tracing.TracingPreservesMeaning | src/spork/core/pipeline/tracing.py:48-63 | every wrapped tree gives the same payload, branches, effects and exception, and one trace line per completed stage or selection, in order |
| Tracing.SelectionTraced | src/spork/core/pipeline/tracing.py:74-94 | the same for a selection and the route it takes, given it for that route |
| Tracing.TracedRunUntraced | src/spork/core/pipeline/tracing.py:87-94 | apart from the trace lines a wrapped run has exactly the effects of the unwrapped one |
| Tracing.WrappingKeepsThePlan | src/spork/core/pipeline/tracing.py:31-94 | a wrapped tree requires and provides what the tree does, so the wiring check carries over |
| RuleEngine.EvaluateIsFirstMatch | src/spork/core/rules/engine.py:74-110 | the verdict is the first enabled rule that holds, or the default; it raises exactly if a reached condition needs a classifier that is absent or fails |
| RuleEngine.EvaluateLazily | src/spork/core/rules/engine.py:36-110 | the loop with its cached answer equals the eager evaluation, and calls the classifier once if a reached condition needs it and otherwise never |
| BodyCleaning.CollapseQuoteChain | src/spork/core/llm/clean.py:65-77 | the loop over the markers cuts at the earliest match, or nowhere |
| BodyCleaning.CollapsedIsCollapse | src/spork/core/llm/clean.py:65-77 | that description has one answer, a prefix cut before its last blank line end |
| BodyCleaning.CollapseIsClean | src/spork/core/llm/clean.py:65-77 | no marker matches anywhere in the collapsed text, and collapsing again changes nothing |
| BodyCleaning.QuotesAreCut | src/spork/core/llm/clean.py:22-27 | each of the four ways a mail client opens a quotation is recognised wherever a line begins, whatever stands around it, and nothing from there on is kept |
| BodyCleaning.TruncationBound | src/spork/core/llm/clean.py:80-91 | within the limit the text is left alone; beyond it the words that fit in whole and the notice; at most the limit plus the notice's length, if and only if the limit is not negative |
| BodyCleaning.SqueezeSpec | src/spork/core/llm/clean.py:94-106 | no three newlines in a row are left, every other character is, and text without such runs is unchanged |
| BodyCleaning.SqueezeDropsOne | src/spork/core/llm/clean.py:94-106 | one of three newlines in a row may as well not be there, wherever they stand; so every longer run is cut down to two |
| BodyCleaning.CleanBodyBounds | src/spork/core/llm/clean.py:94-106 | the cleaned body has no three newlines in a row, for any limit, and is at most the limit plus the marker's length for one that is not negative |
| BodyCleaning.CleanBodyMayUncoverAMarker | src/spork/core/llm/clean.py:94-106 | an indented quoted line is cleaned to a text that begins with a marker |
| BodyMarkers.TruncationMakesNone | src/spork/core/llm/clean.py:80-91 | truncating a text without markers makes none: the notice it appends takes no part in one |
| BodyMarkers.SqueezeSomewhere | src/spork/core/llm/clean.py:94-106 | collapsing blank lines neither makes nor destroys a marker |
| BodyMarkers.RightKeepsMarkers | src/spork/core/llm/clean.py:94-106 | stripping the right end neither makes nor destroys a marker |
| BodyMarkers.LeftUncoversOne | src/spork/core/llm/clean.py:94-106 | stripping the left end of a text without markers leaves at most one, where the text now begins |
| BodyMarkers.CleanBodyMarkers | src/spork/core/llm/clean.py:94-106 | for every body and limit: the cleaned body holds a quote marker if and only if, after cutting and truncating, the text from its first character that is not blank begins one; and it holds none later |
| Receipts.Augment | src/spork/core/receipts/pipeline.py:74-117 | extract, learn, tag and save in this order on the live database, stopping at the first failure |
| Receipts.ArchivesAs | src/spork/core/receipts/pipeline.py:74-117 | for every run: the company is the curated one, else the learned one, else the model's; the lesson, the keywords and the document carry just that company and the stated date, as far as the mode and the failures let them |
| Receipts.ExtractsExactly | src/spork/core/receipts/extract.py:109-129 | the model is asked exactly if no date can be found, or the domain is neither curated nor learned; what is learned stays learned |
| Receipts.AtMostOneExtraction | src/spork/core/receipts/pipeline.py:81-101 | over any attempts at all, cut short anywhere: the datable messages cost one extraction per normalised domain, none if it is known, plus one for each crash between extraction and lesson; all other extractions are those of attempts on messages without a date |
| Receipts.DatelessAlwaysExtracts | src/spork/core/receipts/extract.py:126-128 | n attempts on a message without a date make n extractions, even from a learned sender |
| Receipts.CuratedOutranksLearned | src/spork/core/receipts/extract.py:87-106 | with a curated company and a date that can be found, nothing is asked and nothing learned, whatever the cache holds |
| Tier1.TreeDescribed | src/spork/core/pipeline/default.py:94-140 | the built tree honours its plan, forced or not, with or without the receipt route |
| Tier1.WiredExactlyWithReceipts | src/spork/core/pipeline/default.py:94-140 | its plan passes the wiring check if and only if the receipt route is given |
| Tier1.WithReceiptsNoFault | src/spork/core/pipeline/default.py:94-140 | with the receipt route no payload makes it raise a wiring error |
| Tier1.PipelineIsProcess | src/spork/core/pipeline/default.py:143-196 | the traced tree's run, its result and its effects, is the closed form, gate, rules, action, audit, mark |
| Tier1.RaisesExactly | src/spork/core/pipeline/default.py:120-140 | it raises an unknown branch when the verdict is a receipt and no route was given; any other exception is a collaborator's, a missing classifier or a missing mailbox, so the executor never sees an escalation or a receipt |
| Tier2.Pipeline2IsProcess2 | src/spork/core/pipeline/tier2/default.py:75-125 | the traced tree's run is the closed form, gate, model, record, validate, band, decide |
| Tier2.BandRun | src/spork/core/pipeline/tier2/modules.py:223-243 | once the verdict is valid, the band alone decides the branch, and an invalid threshold pair raises with the call already recorded |
| Tier2.CheckRun | src/spork/core/pipeline/tier2/modules.py:173-220 | the call is recorded before the verdict is validated; negative token counts stop before the record |
| Tier2Wiring.Tree2PlanWired | src/spork/core/pipeline/tier2/default.py:75-125 | the built tree's plan passes the wiring check from no fields at all |
| Tier2Wiring.Tier2NoFault | src/spork/core/pipeline/tier2/default.py:75-125 | no payload makes the built tree raise a wiring error |
| RunFacts.Tier1Facts | src/spork/core/pipeline/modules.py:92-205 | every Tier 1 run: at most one action, audit before mark, nothing at all for a processed message, a mark on every terminal success and none when it raises or escalates |
| RunFacts.Tier1NeverRecords | src/spork/core/pipeline/default.py:94-140 | Tier 1 never touches the model's account |
| RunFacts.AppliesExactly | src/spork/core/actions/executor.py:39-62 | the applier is called, first of all and with the rules' own action, if and only if the process acts, the message gets past the gate, and the verdict is a move or a tag with its mailbox |
| RunFacts.ObserversAreHarmless | src/spork/daemon/loop.py:58-81 | composed to observe, no run calls the applier, writes a keyword, creates a draft or saves a receipt, whatever the rules say |
| RunFacts.Tier1IsOnRecord | src/spork/core/pipeline/modules.py:92-205 | a run that returns a verdict ends in its audit entry, and, unless it escalates, the mark, with the action's name, or the receipt's company and date |
| RunFacts.EscalateFacts | src/spork/core/pipeline/tier2/escalate.py:127-187 | every Tier 2 run: disciplined throughout; whatever it returns, the message is marked; a call is recorded only on the run's date, with budget left |
| RunFacts.QuarantineUncleanExactly | src/spork/core/pipeline/tier2/escalate.py:152-187 | a quarantined message is always marked; the applier was called for it if and only if a valid, banded verdict acts and the applier, the alert or the draft after it raised a quarantined error; a draft exists if and only if creating it raised one |
| RunFacts.QuarantineAfterAnAction | src/spork/core/pipeline/tier2/escalate.py:152-187 | one family of those: a backend that rejects a move after being asked is quarantined with the applier called |
| RunFacts.Tier2RefusesNoKind | src/spork/core/pipeline/tier2/modules.py:262-291 | with a verdict that fits the schema the executor is never asked to escalate or archive |
| Verdicts.ActsExactly | src/spork/core/llm/confidence.py:45-63 | for every escalated message and whatever the collaborators answer: the applier is called if and only if the model was asked, its verdict is usable, the thresholds are numbers in order, the confidence is at least the lower one, and the verdict is a move or a tag with its mailbox; and with just that action |
| Verdicts.AlertsExactly | src/spork/core/pipeline/tier2/modules.py:246-326 | a usable verdict is put up for review exactly below the lower threshold; its action is reported exactly if it was taken and the confidence is below the upper one or the verdict urgent; no other alert goes out but the quarantine's |
| Verdicts.ConfidentIsSilent | src/spork/core/pipeline/tier2/modules.py:246-291 | at or above the upper threshold, without high urgency, nobody is alerted unless the message ends in quarantine |
| Verdicts.DraftsExactly | src/spork/core/pipeline/tier2/modules.py:359-376 | a draft is created, with the verdict's text, if and only if a usable verdict asks for one and the action and the alert before it went well, whatever the band |
| Verdicts.BadThresholdsRaise | src/spork/core/llm/confidence.py:45-57 | thresholds that are not numbers or out of order end the process, with the call recorded |
| Verdicts.TheModelIsTold | src/spork/core/pipeline/tier2/modules.py:107-143 | the request holds the message, the addresses of its `To` header, its cleaned body, its thread, the account's mailboxes, the allowed categories and the context |
| Verdicts.DecidedIsRecorded | src/spork/core/pipeline/tier2/modules.py:262-326 | a decided message ends audited with what was done, its category and its band, and marked with its verdict |
| Verdicts.SkippedIsRecorded | src/spork/core/pipeline/tier2/modules.py:329-356 | without budget the message is alerted about, audited and marked as just that, and nothing else |
| Verdicts.BudgetIsPerDay | src/spork/core/pipeline/tier2/modules.py:77-86 | at any time of a day the budget asked about is that day's, and the call and its tokens go to that day's account and to no other |
| Verdicts.UnusableIsQuarantined | src/spork/core/pipeline/tier2/escalate.py:53-57 | a model that fails, a verdict outside the categories or mailboxes, and an action without the mailbox it needs are quarantined and do not end the process |
| Verdicts.OthersEndTheProcess | src/spork/core/pipeline/tier2/escalate.py:127-187 | any other exception goes through with nothing added |
| Verdicts.QuarantineIsRecorded | src/spork/core/pipeline/tier2/escalate.py:166-187 | what a quarantine leaves: the audit entry, the mark that says so, the critical alert, in this order |
| Escalate.EveryCommaSeparates | src/spork/core/pipeline/tier2/escalate.py:71-78 | the addresses of two texts joined by a comma are those of the first, then those of the second; a text without commas is one address, stripped, or none if that leaves nothing |
| Escalate.ProcessMessage | src/spork/core/pipeline/default.py:143-196 | on the live database the composed pipeline does what the closed form says, trace lines apart |
| Escalate.RunAttempt | src/spork/core/pipeline/tier2/escalate.py:81-124 | the two reads come first and a failing one is the outcome; then the pipeline as its closed form says |
| Escalate.EscalateOrQuarantine | src/spork/core/pipeline/tier2/escalate.py:127-187 | exactly the quarantinable errors are caught, and then audit, mark and alert follow in this order |
| Mailbox.DeliveriesJoin | src/spork/core/providers/jmap/client.py:188-248 | a fetch from a to b and one from b to c are one fetch from a to c |
| Mailbox.DeliveryGrows | src/spork/core/providers/jmap/client.py:188-248 | a delivery stays one when more mail arrives |
| Mailbox.DeliveryIsComplete | src/spork/core/providers/jmap/client.py:188-248 | every Inbox message created in the stretch and left alone is delivered |
| Mailbox.DeliveredIfInInbox | src/spork/core/providers/jmap/client.py:188-248 | whatever moves and vanishes: a message created in the stretch is delivered if and only if it is in the Inbox when its page is read |
| Mailbox.DeliveryIsInOrder | src/spork/core/providers/jmap/client.py:188-248 | each creation is delivered at most once, in creation order |
| Mailbox.ExactlyWhenPlacesKept | src/spork/core/providers/jmap/client.py:188-248 | a fetch by given pages is exactly the Inbox mail created in the stretch if and only if each message created there is, when its page is read, where it was created |
| Mailbox.UntouchedUntilRead | src/spork/core/providers/jmap/client.py:188-248 | which it is if nothing touches it before its page is read; what happens to it afterwards does not matter |
| Mailbox.DeliveryMissesNone | src/spork/core/providers/jmap/client.py:188-248 | a fetch by given pages misses no message created in its stretch, in the Inbox, that nobody touches before its page is read |
| Mailbox.DeliveryIsExact | src/spork/core/providers/jmap/client.py:188-248 | when no message created in the stretch is touched afterwards, a delivery is exactly the Inbox mail of the stretch, however it is paged |
| Jmap.FetchNewMessages | src/spork/core/providers/jmap/client.py:188-248 | baseline without replay at first; then a delivery from the cursor by the pages it has read, up to a cursor past every change that was there when it began, so that no untouched Inbox message of these is missing; for any page splits and mail arriving between requests; it makes a request, and raises only if one fails or the cursor is none of the server's; the paging loop ends |
| Jmap.FilteredPage | src/spork/core/providers/jmap/client.py:243-246 | the Inbox filter on one page keeps exactly the created messages still in the Inbox when it is read |
| Jmap.NextDelay | src/spork/core/providers/jmap/backoff.py:14-29 | the entry of the attempt, and the last one for every attempt beyond the schedule, so that the delays settle |
| Jmap.PushTrigger.Wait | src/spork/core/providers/jmap/push.py:41-60 | returns exactly if an event comes in which the account's mail state or mail delivery has changed; otherwise a disconnect after the next delay of the schedule, restarted by every such event |
| Jmap.FallbackSource.FetchAndAdvance | src/spork/core/providers/jmap/provider.py:82-86 | the shared cursor moves only when the fetch succeeded, to the batch's checkpoint, which is past all that was there when the fetch began |
| Jmap.FallbackSource.PollBatch | src/spork/core/sources/fallback.py:60-65 | push is waited for on every call; exactly if no relevant event comes, the timer is waited for too; one delivery either way, past all that was there, and a fetch whose request failed leaves the cursor and is raised without a second try |
| Jmap.FallbackSource.PollRepeatedly | src/spork/core/providers/jmap/provider.py:219-242 | any sequence of push events, disconnects, timers and failed fetches, with mail moving at any time: all batches together are one delivery by the pages read, in creation order, and exactly the Inbox mail of the stretch if and only if each message created in it was, when its page was read, where it was created; every poll that returned left the cursor past all that was there when it began, and a poll does not return only if a request failed |
| DaemonLoop.DaemonState.Pause | src/spork/daemon/loop.py:234-239 | sets the flag and enqueues the event in one step, nothing else |
| DaemonLoop.DaemonState.Resume | src/spork/daemon/loop.py:241-246 | clears the flag and enqueues the event in one step, nothing else |
| DaemonLoop.RulesState.Reload | src/spork/daemon/loop.py:248-255 | a failed load leaves the last good rules |
| LoopSpec.AnswersExactly | src/spork/daemon/loop.py:231-255 | any calls together queue just their pause and resume events, in order; the flag is what the last of them makes it, the rules change only by a reload that loaded, and only a stop stops |
| DaemonLoop.Loop.Handle | src/spork/daemon/loop.py:208-257 | call by call: a pause sets the flag and queues its event, a resume clears it and queues its own, a reload that loaded sets the rules, a stop is noted, status changes nothing; and nothing else is changed |
| DaemonLoop.Loop.Await | src/spork/daemon/loop.py:351-439 | at an await just the calls made there are handled, one after another: flag, events, rules and stop are what they leave |
| DaemonLoop.Loop.Drain | src/spork/daemon/loop.py:352-370 | capture and reset in one step, then the captured events one by one, each its own commit with its name and time; what is called meanwhile waits; refines the machine |
| DaemonLoop.Loop.PollOnce | src/spork/daemon/loop.py:375-388 | one poll makes a request; what it returned, or its failure, and the rules read after it, refine the machine |
| DaemonLoop.StartLoop | src/spork/daemon/loop.py:167-203 | a process is composed on its database: the source starts at the stored cursor, and the loop stands at its head |
| DaemonLoop.Loop.RunTier1 | src/spork/daemon/loop.py:389-402 | one message through Tier 1 in a worker thread, with the await's own collaborators in the life's mode, refines begin and one commit after another, then the handlers that ran meanwhile |
| Interleavings.HandlersMayWait | src/spork/daemon/loop.py:389-402 | which is no loss: any interleaving of handlers with commits reaches what the commits and then the handlers reach |
| DaemonLoop.Loop.RunTier2 | src/spork/daemon/loop.py:417-430 | the same for an escalated message |
| LoopSpec.TreatedSettles | src/spork/daemon/loop.py:389-437 | whatever the surroundings answer: when the loop is done with a message without an exception, it is processed, or, in a life that observes, audited as an escalation; and no cursor has moved |
| DaemonLoop.Loop.HandleMessage | src/spork/daemon/loop.py:389-437 | a message is not begun once a stop is noted; else Tier 1, Tier 2 if that escalates in a life that acts, and the budget check, with just the effects and the exception that the answers of the surroundings decide |
| DaemonLoop.Loop.CheckDailyBudgetAlert | src/spork/daemon/loop.py:260-295 | the guarded alert, exactly if the day's count has reached the budget and the day is not the one last alerted; the date is noted before the alert goes out; refines the machine's check |
| DaemonLoop.Loop.Acknowledge | src/spork/daemon/loop.py:438-439 | the cursor is set only with the whole batch dealt with |
| DaemonLoop.Loop.HandleBatch | src/spork/daemon/loop.py:389-439 | the batch's messages in order, each settled before the next, then the acknowledgement; if it stops or a message's treatment raises in between, the stored cursor stays |
| DaemonLoop.Loop.Iterate | src/spork/daemon/loop.py:351-439 | paused once what is pending has been written, an iteration leaves the server alone; otherwise it makes a request, and if the poll returns, every message of the batch is settled and then the stored cursor is the poll's checkpoint, unless a stop or an exception comes in between; if the poll raises, a request has failed |
| DaemonLoop.Loop.RunMessageLoop | src/spork/daemon/loop.py:298-439 | for any number of rounds and any handler calls: all batches together are one delivery from the first cursor to the stored one, each message settled; once a round has polled, every Inbox message that was there when the loop began and was left alone until read is settled; every round polls if nobody pauses, none if paused and nobody resumes; it ends only on a stop or an exception; and it is a run of the machine |
| DaemonRuns.RunInvKept | src/spork/daemon/loop.py:389-437 | every step keeps it true that the run in hand, committed and to come, is one disciplined run |
| DaemonRuns.MarkedIsProcessed | src/spork/core/pipeline/modules.py:185-205 | a finished run that marked its message has left it processed |
| RunHistory.StepMoves | src/spork/daemon/loop.py:298-439 | every step leaves the commits of all runs alone, opens a run without any, or adds the next commit to the run in hand |
| RunHistory.ProcessedIsMarked | src/spork/core/pipeline/modules.py:185-205 | in every reachable state a message is processed if and only if it was at first, or one of its own runs has committed its mark |
| RunHistory.FinishedRuns | src/spork/daemon/loop.py:389-437 | in every reachable state each run that came to its end has marked its message, or found it processed, or was an escalation in a life that observed, which has only alerted and audited |
| CursorSafety.CursorSafety | src/spork/daemon/loop.py:375-439 | in every reachable state, through crashes, stops, pauses and restarts in either mode, with mail moving and vanishing at any time: every message of every acknowledged batch is processed, or audited and held back by a life that observed; and so is every message between the first and the stored cursor that was in the Inbox when its page was last read |
| CursorSafety.SeenIsDelivered | src/spork/core/providers/jmap/client.py:243-246 | a message between the cursors is in the acknowledged batch of its stretch if and only if it was in the Inbox when its page was last read |
| CursorSafety.UntouchedIsDealt | src/spork/daemon/loop.py:375-439 | in particular every Inbox message that nobody touches |
| CursorSafety.PolledFromDurable | src/spork/daemon/loop.py:375-382 | at each poll the cursor in memory is the stored one |
| CursorSafety.CursorInvKept | src/spork/daemon/loop.py:351-439 | every step keeps the invariant: acknowledged polls join without a gap up to the stored cursor, all their messages have had a run that came to its end, and those of the poll in hand have, or are still to come |
| CursorSafety.UnprocessedExactly | src/spork/core/pipeline/default.py:160-165 | in every reachable state a message is unprocessed if and only if it was at first, and each of its runs was cut before its mark or came to its end with an escalation in a life that observed |
| CursorSafety.LeftBehindExactly | src/spork/core/pipeline/default.py:160-165 | so a message between the cursors is left behind only if a life that observed held it back, or it was gone from the Inbox when its page was last read and every run of it was cut before its mark |
| CursorSafety.AckedExactly | src/spork/core/providers/jmap/client.py:188-248 | over any run: all acknowledged batches together are one delivery from the first to the stored cursor, in creation order and each at most once, and exactly the Inbox mail created between them if and only if each message created there was, when its page was read, where it was created |
| CursorGaps.MoveLeavesOneBehind | src/spork/core/pipeline/default.py:160-165 | for every setup a run exists, without any life that observes, in which a message is moved by its rule, the process crashes before the mark, and the message ends behind the cursor, acted on, neither processed nor audited |
| CursorGaps.ObserveLeavesOneBehind | src/spork/daemon/loop.py:417 | for every setup a run exists in which a life that observes leaves a message of an acknowledged batch unprocessed, and the life after it, which acts, starts behind it |
| CursorGaps.DeliveredUnlessHeldBack | src/spork/daemon/loop.py:417-439 | as long as no run was held back, all messages of acknowledged batches are processed |
| CursorGaps.DeliveredProcessedExactlyWhenNotObserving | src/spork/daemon/loop.py:417-439 | all states that lives of one mode reach have all messages of acknowledged batches processed if and only if that mode is not to observe |
| CursorGaps.NothingLeftExactly | src/spork/daemon/loop.py:375-439 | every Inbox message between the cursors is processed if and only if none slipped through, with each of its runs cut before its mark or held back; and what slipped through was held back, or gone from the Inbox when last read |
| LoopSafety.LoopLeavesNothingBehind | src/spork/daemon/loop.py:298-439 | at every point of the imperative loop, on its own database: every message of every acknowledged batch is processed or was held back, and one between the cursors is unprocessed exactly if it was at first and its runs were cut before their mark or held back |
| LoopSafety.LoopAccountsForItsCalls | src/spork/daemon/loop.py:234-246 | wherever the loop stands: rows written, events captured and events pending are all pause and resume calls made at its awaits, in order, and the flag is what they leave |
| LoopSafety.EndedLoopAccountsForItsCalls | src/spork/daemon/loop.py:351-370 | however it has ended, the rows it has written are those calls but for the last ones |
| LoopSafety.ObservingLoopIsHarmless | src/spork/daemon/loop.py:58-81 | a loop that observes, wherever it stands or however it ended, has called no applier, created no draft, written no keyword and saved no receipt |
| Modes.ModeInvKept | src/spork/daemon/loop.py:121-145 | every step keeps it true that lives and runs that observe have changed nothing outside, and that the run in hand of a life that acts does what its verdict says |
| Modes.ObservingLivesAreHarmless | src/spork/daemon/loop.py:58-81 | in every reachable state no run in a life that observes has called the applier, written a keyword, created a draft or saved a receipt, nor has anything such a life logged |
| Modes.ActingRunsDoAsTold | src/spork/daemon/loop.py:121-122 | in every reachable state a Tier 1 run of a life that acts that has come to its end with a move or a tag has called the applier with just that, first of all |
| ControlPlane.ControlPlaneConservation | src/spork/daemon/loop.py:361-370 | for any number of interleaved calls: written, captured and pending events together are the calls made, in order, and the flag is what they leave |
| ControlPlane.ControlPlaneOverLives | src/spork/daemon/loop.py:351-370 | over all lives, however each ended: the control-plane rows of the whole log are, in order, each life's calls but for its last ones, which it had taken in and not written when it ended |
| ControlPlane.CleanStopLosesACall | src/spork/daemon/loop.py:351 | a call made just before a clean stop is never written |
| ControlPlane.SplitCaptureLosesEvents | verification/README.md:194-217 | with capture and reset apart, a call between them is lost from every such state |
| BoundedEffects.ApplierCallsBounded | src/spork/core/pipeline/modules.py:92-116 | over any run with crashes, the applier calls for a message are exactly its runs that called it and have not marked the message, plus one if a run did both; so at most one more than such runs that are over |
| BoundedEffects.OnlyCutRunsActUnmarked | src/spork/core/pipeline/modules.py:92-116 | and each of those that are over was cut short |
| BoundedEffects.ProcessedIsAudited | src/spork/core/pipeline/modules.py:158-205 | every id marked in any run has an earlier audit entry |
| BudgetBound.DailyBudgetBound | src/spork/core/pipeline/tier2/modules.py:77-86 | each date's calls are the initial ones plus those recorded, and never above the larger of the budget and the initial count |
| BudgetBound.CallsAreAccountedFor | src/spork/core/pipeline/tier2/modules.py:146-199 | in every reachable state the calls the model answered on a date are those recorded under it, plus one for each run whose last commit is such a call |
| BudgetBound.OnlyCutRunsLoseCalls | src/spork/core/pipeline/tier2/modules.py:146-199 | and such a run was cut short: no finished run ends in a call |
| SharedBudget.SharedBudgetBound | src/spork/core/pipeline/tier2/modules.py:77-86 | n processes interleaved between gate and record exceed the budget by at most n - 1, and start no call on a full budget |
| SharedBudget.SharedBudgetIsTight | src/spork/core/state/db.py:268-292 | and they can exceed it by exactly n - 1, from any count within it |
| SharedBudget.RunIsOneTurn | src/spork/core/pipeline/tier2/default.py:75-125 | a Tier 2 run is one turn of such a process: nothing if the gate refuses, else the gate and then one recorded call or none; it leaves the account as that turn does, and what others do after the gate does not change the run |
| DailyAlert.AlertedAtMostOnceADay | src/spork/daemon/loop.py:260-295 | within one process life no date is alerted twice if and only if the dates of the checks that found the budget used up never return to one they have left; every alerted date is used up |
| DailyAlert.GoingBackAlertsTwice | src/spork/daemon/loop.py:282-295 | a date that comes back after another has been alerted is alerted again |
| AlertReturns.AlertComesBack | src/spork/daemon/loop.py:260-295 | for every setup with two dates used up, a reachable state in which the checks of one life went from the one to the other and back, and the first was alerted twice |
| DailyAlert.ExhaustedCheckAlerts | src/spork/daemon/loop.py:282-295 | a check on an exhausted date leaves it alerted, by this check or an earlier one, and alerts no more than once |
| Backfill.Provider.QueryJmap | src/spork/core/providers/jmap/client.py:250-307 | one window of the query, the survivors of its ids, a next position that counts ids, and whether more is known to follow; it raises exactly if a request fails |
| Backfill.Provider.QueryFile | src/spork/core/providers/file/provider.py:254-277 | the same contract over a slice of the fixture |
| Backfill.RunBackfill | src/spork/cli/commands/backfill.py:147-204 | one sweep over exactly the survivors of adjacent windows from the start; at most the limit; no window after the end is known to be reached or after one without survivors; it stops for the reason given, an abort for a request or a message that failed; the loop ends |
| Backfill.HandlePage | src/spork/cli/commands/backfill.py:154-195 | the inner loop continues the sweep where the pages before left it |
| Backfill.BackfillActs | src/spork/cli/commands/backfill.py:107-170 | a backfill carries out a rule's move or tag, and a rule that archives receipts ends it |
| Backfill.NoIdAskedTwice | src/spork/cli/commands/backfill.py:202-204 | tiling windows over distinct ids never request one twice |
| Backfill.HandledInTwo | src/spork/cli/commands/backfill.py:147-204 | cutting a sweep into pages anywhere changes nothing |
| Backfill.AllCounted | src/spork/cli/commands/backfill.py:172-195 | every message counts once unless the sweep ends early; verdicts and quarantines are among the actions, those among the processed |
| Backfill.SweepSparesMarkedMail | src/spork/cli/commands/backfill.py:157-172 | every effect of a sweep is about one of its messages that was not marked before |
| Backfill.SecondSweepIsIdle | src/spork/cli/commands/backfill.py:157-174 | a second run does nothing with what the first handled, whatever its rules and collaborators |
| BackfillSkips.SkipsWhatItMoves | src/spork/cli/commands/backfill.py:197-204 | however requests and the sweep's own moves alternate, the messages passed over without being requested are as many as were moved away, or all that were never requested, whichever is less |
| BackfillSkips.ProviderPages | src/spork/cli/commands/backfill.py:147-204 | the requests of a provider whose result stays as it is are such a run without moves, and pass over nothing |
| TomlText.CharsReadBack | src/spork/core/rules/writer.py:22-25 | an escaped string is read back as it was, or, if it holds a control character, not at all |
| TomlText.EscapeStep | src/spork/core/rules/writer.py:22-25 | the two replacement passes escape each character on its own, so the second never touches what the first put in |
| TomlText.ValueReadsBack | src/spork/core/rules/writer.py:28-37 | the same for every printed value, before any text that follows |
| TomlText.InlineReadsBack | src/spork/core/rules/writer.py:40-42 | the same for an inline table with distinct keys |
| RulesFile.DumpRules | src/spork/core/rules/writer.py:45-65 | the loop over lines and blocks writes the text the specification gives |
| RulesFile.LoadRules | src/spork/core/rules/loader.py:31-57 | on the TOML the writer emits, the loop with its set of seen ids loads what the specification gives: the entries in file order, the first bad or repeated one refused |
| RulesFile.FileReadsBack | src/spork/core/rules/writer.py:45-65 | a written file parses to the fields of its rules exactly if no string holds a control character |
| RulesFile.RuleReadsBack | src/spork/core/rules/schema.py:18-90 | what is left out on writing is what the schema fills in on loading |
| RulesFile.ConditionSchema | src/spork/core/rules/schema.py:32-45 | a condition is accepted if and only if it has no field but the four and each is of its kind; a missing flag is clear, a missing list none |
| RulesFile.ActionSchema | src/spork/core/rules/schema.py:65-71 | an action likewise, with one of the five types; an alert is asked for only by saying so |
| RulesFile.RuleSchema | src/spork/core/rules/schema.py:84-90 | a rule likewise, with an id, a condition and an action; it is enabled unless it says otherwise |
| RulesFile.RoundTrip | src/spork/core/rules/writer.py:45-65 | loading a written list gives it back if and only if the ids are distinct and no string holds a control character; otherwise it is refused as not TOML, or for the repeated id |
| RulesFile.SetEnabled | src/spork/cli/commands/rules.py:144-164 | refuses an unknown id or an unloadable file and writes nothing, else writes the flipped list and one audit entry |
| RulesFile.FlipChangesOneFlag | src/spork/cli/commands/rules.py:144-164 | loading afterwards gives the list with that one flag changed if no string holds a control character, else the file no longer loads |
| RulesFile.NewlineIsNotReadBack | src/spork/core/rules/writer.py:22-25 | a newline in a description makes a file that cannot be loaded |
| ConfigMerge.DeepMerge | src/spork/core/config/loader.py:55-66 | filling a copy key by key, in any order, gives the merged tree |
| ConfigMerge.FlattenKeys | src/spork/core/config/loader.py:111-124 | exactly the paths of the leaves, as `DottedIsJoined` writes them |
| ConfigMerge.DottedIsJoined | src/spork/core/config/loader.py:111-124 | a path is written as its keys joined by dots; an empty key at the front leaves no dot |
| ConfigMerge.LoadConfig | src/spork/core/config/loader.py:84-98 | on the files that exist: every leaf of the enforced one is the configuration's, every other leaf of the user's where that is free, and those of the first system default where both are |
| ConfigMerge.LeafOfMerge | src/spork/core/config/loader.py:55-66 | at every path: the upper tree's leaf, else the lower tree's where the upper has no value on, above or below the path, else none |
| ConfigMerge.EnforcedWins | src/spork/core/config/loader.py:98 | every leaf of the enforced tier is the configuration's |
| ConfigMerge.LowerLeavesSurvive | src/spork/core/config/loader.py:98 | a lower tier's leaf survives where no higher tier has a value on, above or below its path |
| ConfigMerge.MergedTwice | src/spork/core/config/loader.py:55-66 | merging the same tree again changes nothing |
| ConfigMerge.AssociativeUnlessMasked | src/spork/core/config/loader.py:55-66 | merging is associative if and only if no scalar in the middle hides a table whose contents the upper tree lacks |
| ConfigMerge.AbsorbedIsLost | src/spork/core/config/loader.py:55-66 | a merge is just the upper tree if and only if that has every key of the lower one, table below table |
| ConfigMerge.MaskedTable | src/spork/core/config/loader.py:55-66 | a scalar between two tables: grouped to the left the lower leaf is lost, to the right it is kept |
| Entities.IndexDomains | src/spork/core/context/clients/entities/provider.py:61-64 | the nested loops build an index that agrees with the last mention of every folded domain |
| Entities.IndexServices | src/spork/core/context/clients/entities/provider.py:66-89 | every service: first casing, last category, all providers in fixture order with multiplicity |
| Entities.IndexPeople | src/spork/core/context/clients/entities/provider.py:91-96 | the last person under each folded address and each folded name |
| Entities.EntityContextProvider.constructor | src/spork/core/context/clients/entities/provider.py:54-96 | every index agrees with a linear scan of the fixture |
| Entities.EntityContextProvider.LookupService | src/spork/core/context/clients/entities/provider.py:104-105 | the service a scan of the fixture gives, whatever its casing |
| Entities.EntityContextProvider.LookupPerson | src/spork/core/context/clients/entities/provider.py:107-112 | by address first, then by name, as a scan would find |
| Entities.DomainFound | src/spork/core/context/clients/entities/provider.py:61-64 | a domain is found if and only if some company operates it, and its entry names the last that does |
| Entities.DomainResolves | src/spork/core/context/clients/entities/provider.py:119-127 | a domain that is found always names a company that is found, for every fixture |
| Entities.OwnerFoundExactly | src/spork/core/context/clients/entities/provider.py:57-64 | that company is the one the entry names if and only if no later company folds to its name; otherwise it does not operate the domain |
| Entities.SenderFound | src/spork/core/context/clients/entities/provider.py:91-96 | a sender is found by address if and only if a person has that address, not empty, and is the last who does |
| Entities.EntityContextProvider.GetContext | src/spork/core/context/clients/entities/provider.py:114-137 | the snippets a scan of the fixture gives, with their text; the assertion in the middle never fails |
| Entities.FoldedNamesHideAnOwner | src/spork/core/context/clients/entities/provider.py:57-64 | two companies of one folded name, the smallest such fixture: the domain of the first is rendered as the second |
| SmtpSink.State.Record | scripts/smtp_harness.py:29-34 | appends the message and says whether to break off |
| SmtpSink.Handler.Handle | scripts/smtp_harness.py:44-82 | the loop over the lines performs the conversation of the specification, with other connections recording in between |
| SmtpSink.StuffedIsSafe | scripts/smtp_harness.py:53-64 | a stuffed line is never the terminator and is unstuffed to itself |
| SmtpSink.SessionIsRecorded | scripts/smtp_harness.py:44-82 | the messages of a session are recorded as they were and in order, all acknowledged, or up to the one at which the sink breaks off, which is not; the shared store gains them among what others recorded, each acknowledged one where it was put, and with no others it gains them and nothing else |
| SmtpSink.StoreHoldsAll | scripts/smtp_harness.py:29-34 | of any input at all: what the store gains while a connection lasts is what it and the others recorded, each in order, and nothing else |
| SmtpSink.NeverAckedLate | scripts/smtp_harness.py:29-34 | of any input at all: every acknowledged message stands in the store where it was put, and no message from the n-th recorded onward is acknowledged, whoever recorded the others |

## Left out

- CursorSafety.CursorSafety: an escalated message that a life in observe mode has handled is proved audited, not processed, because the code does not mark it; `CursorSafety.UnprocessedExactly` says exactly which messages that leaves unprocessed.
- Failures of the database itself: a write that fails ends the process at that commit, which is a crash of the model.
- JMAP states: opaque strings in the protocol, here the positions of the server's change log; destroyed ids may still be listed as created, as RFC 8620 section 5.2 allows.
- The order in which Email/get answers: taken to be the order asked for; the protocol leaves it open.
- Jmap.FetchNewMessages: terminates provided mail stops arriving at some request, since a server to which mail keeps arriving can keep any client paging.
- `cannotCalculateChanges` and other JMAP error types: one failed request, whatever its reason; the process ends as the original does.
- Sources without a checkpoint in the daemon loop (the file provider's): they have no cursor to be safe about.
- IPC transport, systemd notification, signal handling, logging and the delivery of alerts: plumbing around the steps that are modelled.
- Backfill.RunBackfill: the server's query result is fixed during a run; whether an id is still there is settled when it is fetched. What a result that shrinks under the sweep's own moves costs is `BackfillSkips.SkipsWhatItMoves`, which follows ids and positions only; `BackfillSkips.ProviderPages` relates the two.
- Reclassification, dry runs, status, logs and the other commands: they compose members that are modelled here.
- Audit details are the action's type, band and company as text, not their JSON encoding.
- HTML stripping, case folding, the regular expressions' engine, PDF building and keyword writing: parameters, or an outcome that succeeds or fails.
- RulesFile.SetEnabled: files the model's loader refuses though the original's loads them, and the reload pushed to a running daemon afterwards, which never fails the command.
- RulesFile.LoadRules: TOML beyond what the writer emits (comments, escapes by code point, numbers, dates, multi-line strings, headers other than `[[rule]]`) is refused, and the schema's conversions from other types are not modelled.
- Lone surrogates in rule strings: the character type has none; the original fails to encode them.
- ConfigMerge.LoadConfig: validation of the merged tree against the schema, and the resolution of the paths.
- Reading the knowledge base from its JSON file.
- Decoding the bytes of the SMTP connection, and its shutdown.
- Liveness: nothing is proved about when a step happens, only that loops inside a step end.
