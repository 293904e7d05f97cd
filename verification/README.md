# Verified model of the OpenAlgo blueprints

A Dafny model of the stateful parts of OpenAlgo's web layer: the workflow trigger lifecycle, the Chartink order
processor and square-off scheduler, the agent's turn recorder, stream slots and resume options, broker keys against
the live broker session, the `.env` editor, the log windows of the admin pages, the two-step sign-in, and the expiry
codes of the flow editor. `dafny verify dfyconfig.toml` checks all of it.

Each module has the same shape. Functions over immutable values say what one request, or one stretch under a lock,
makes of the state; whatever can fail in the source is an input of the step. Lemmas then speak about every sequence
or interleaving of steps. Where the source keeps objects or loops, a class or a method carries the operation out step
by step, is proved to do what the function says, and promises its caller the invariants that the lemmas prove of it.

| module | what it models |
|---|---|
| FlowGraph, FlowLifecycle | a workflow's row, its three registrations, its feeds and its run lock under activate, update, replace, deactivate, delete and runs |
| OrderPump, ProcessorGuard | the two order queues, the sliding-window limit and the single processor |
| SquareoffJobs | square-off jobs under create, toggle, delete and the restore after a restart |
| TurnRecorder | the record of one agent turn, kept in shared mutable entries, and what is stored of it |
| StreamSlots | the registry of long-lived responses and the routes that take and give back a slot |
| RunOptions | what a turn was built with, stored as JSON and recovered on resume |
| BrokerKeys | saves, forgets, logins, resumes and sign-outs under the commit guard and the login slot |
| EnvEditor, EnvSaves | one edit of the `.env` text, and many writers under one lock |
| LogWindow, LogScan, ErrorGroups | the byte-bounded tail, the scan for the newest matches, the grouping by fingerprint |
| SignIn | password, second factor, 2FA settings and logout of one browser session |
| ExpiryCodes | normalising and ordering broker expiry strings |
| Text, Sorting, Wrappers | Python's strip, upper and splitlines characters, its stable sort, an option type and the removal of a key |

## Where the code keeps less than it promises

Each of these has a lemma or a contract with the exact condition, and a concrete case where one is not plain from it.

- Workflow triggers: a save compares the last trigger of each type while the registration is built from the first, so
  an editor save with two triggers can leave an old registration armed (`FreshExactly`, `SecondTriggerGoesStale`).
  Delete and rollback swallow a failed job removal (`DeleteQuietExactly`, `QuietExactly`), and an activation over such a
  leftover arms a second kind (`OneKindExactly`, `LeftoverThenActivation`). A rollback releases no feed
  (`TurnedOffFeedsExactly`).
- Order processor: an order put after the processor its caller saw has reset the flag waits for the next caller
  (`StrandedExactly`, `NextCallerServes`). A processor leaves only after a pill, and nothing in the repository puts one,
  so this does not happen as the code stands (`NeverStrandedWithoutAPill`).
- Square-offs: a failed delete of a strategy has already removed its job (`FailedDeleteExactly`). A deletion that
  overlaps with an activation, a creation or a restore of the same strategy can leave its job behind (`OrphanExactly`,
  `VisitAfterDelete`, `AddInsideDelete`). The store gives the id of a deleted newest row out again, and a restore that
  had read the deleted one can put its time on the new one's job (`OnTimeExactly`, `ReusedIdMistimed`).
- Turn recorder: the handler around one frame expects `ValueError` and `TypeError`, so a frame that is JSON but no
  object would end the stream, although the comment says such a frame still reaches the client (`CutShortExactly`,
  `NotAnObjectAlone`). Nothing sends one as the code stands: every data frame is written by `sse()`
  (services/agent/frames.py:454-481) from a mapping.
- Resumes: the resume reads the newest operator row, not the one that opened the paused run, and takes a missing row as
  search on (`ResumeReachesTheWebExactly`, `LaterTurnWidens`).
- Broker keys: a resume can revive yesterday's token after its keys were replaced (`CommitFitsExactly`, `StaleResume`),
  and a login slower than its lease can register after its keys were replaced (`SaveFitsExactly`, `LapsedLease`).
- `.env`: only `\n` is refused in a value although the file is split at many other characters, so a second edit
  replaces only the first piece of such a value (`SetTwiceExactly`, `SetReadsExactly`); only the first assignment is
  replaced although a later one wins for python-dotenv (`LastReaderExactly`); the line ends of the file are not
  preserved, because the text is read with universal newlines (`LineEndsNormalised`).
- Error groups: an empty timestamp would be written over as if it were not set (`FirstSeenExactly`). The only writer of
  the file always stores one that is not empty (utils/logging.py:405).
- Expiry codes: a code keeps two digits of the year (`CenturyExactly`).

## Model

| member | source | states |
|---|---|---|
| FlowGraph.SingleTriggerConfig | services/flow_workflow_validator.py:1657-1676 | with at most one trigger node, what a save compares is exactly that node's compared fields |
| FlowGraph.ComparedFieldsDetermine | blueprints/flow.py:447-512 | every field a registration is built from, with its default, is among the compared ones: graphs that agree on those ask for the same registration |
| FlowGraph.DefaultsArmTheSame | blueprints/flow.py:447-512 | a field left out and the same field given its default ask for the same registration |
| FlowGraph.StartArguments | blueprints/flow.py:447-512 | a Start node asks for a job if and only if its schedule is there, not empty and not "manual", and the job is given these seven fields by name, with a default for the time alone and the market-hours switch by whether it is on |
| FlowGraph.AlertArguments | blueprints/flow.py:447-512 | a price alert is armed with these nine fields by name and these defaults, a falsy price counting as none |
| FlowGraph.WatchArguments | blueprints/flow.py:447-512 | an order watch with these five, an empty order id, symbol or exchange counting as any |
| FlowGraph.ComparedExactly | services/flow_workflow_validator.py:1616-1676 | giving one field another value is seen by a save if and only if it is one of the nineteen names told here |
| FlowGraph.SameConfigSameRegistration | blueprints/flow.py:311-342 | between graphs with at most one trigger each, an unchanged configuration means an unchanged registration |
| FlowGraph.SecondTriggerHidesAChange | services/flow_workflow_validator.py:1657-1676 | for any fields, a second trigger of the same type put in front changes what is armed and is not seen by the comparison |
| FlowLifecycle.OffMeansDisarmed | blueprints/flow.py:378-413 | over every run of routes and run steps, whatever fails, an inactive or deleted workflow has no job, alert or watch all along if and only if no step on the way leaves a job |
| FlowLifecycle.DeleteQuietExactly | blueprints/flow.py:378-413 | a delete leaves a job behind if and only if it goes through (row present, not running, every feed let go, the write stored) to an active workflow with a job and the silent removal fails |
| FlowLifecycle.QuietExactly | blueprints/flow.py:536-562 | told from the state before any request: it leaves a job without an active row if and only if it is a save or an activation with a job to lose (or one whose id cannot be stored and whose undo fails), whose rollback fails to remove it and clears the flag, or a delete that goes through to an active workflow with a job and fails to remove it |
| FlowLifecycle.WorkingRemovalsLeaveNothing | blueprints/flow.py:378-413 | over every run in which the removals whose failures are swallowed succeed, no step leaves a job |
| FlowLifecycle.RegisterArms | blueprints/flow.py:447-512 | a registration on a disarmed workflow that does not raise arms exactly what the trigger asks for and nothing else |
| FlowLifecycle.RegisterFails | blueprints/flow.py:447-512 | a registration that raises touches nothing but the job: whether it is there is told from the clearing, the add, the stored id and the undo |
| FlowLifecycle.FalsyDataRaises | blueprints/flow.py:601-628 | activation hands falsy data over as it is, which raises, while a save reads it as a node without fields |
| FlowLifecycle.RearmedOrStoodDown | blueprints/flow.py:515-562 | a save that changes the configuration either ends armed exactly as the new graph asks, or asks for a new activation with nothing armed |
| FlowLifecycle.SaveFreshExactly | blueprints/flow.py:311-342 | a save over an armed workflow leaves it armed from the new graph if and only if the compared configuration changed or the first trigger, defaults applied, asks for the same as before |
| FlowLifecycle.FreshExactly | blueprints/flow.py:311-342 | whatever fails and whatever graph is saved, a step ends that what is armed is what the stored graph asks for if and only if it is a save that asks for another registration and either leaves an armed one alone (comparison unchanged, or workflow off) or keeps the old job through a failed re-registration and rollback, or a delete that leaves something armed |
| FlowLifecycle.ArmedFromTheStoredGraph | blueprints/flow.py:311-342 | over every run, with graphs of any number of triggers and any failure, whatever is armed was built from the graph stored at the time, all along, if and only if no step is one of those |
| FlowLifecycle.OneTriggerNeverStale | blueprints/flow.py:311-342 | a run that stores at most one trigger per graph and whose silent removals succeed has no such step |
| FlowLifecycle.OneKindExactly | blueprints/flow.py:567-628 | from any state with at most one of job, price alert and order watch armed, and whatever fails, a step ends with two if and only if it is an activation that passes its gates and arms something (no step of it failing) over a leftover of another kind |
| FlowLifecycle.AtMostOneKind | blueprints/flow.py:447-512 | over every run in which no step leaves a job, with graphs of any number of triggers, at most one kind is armed |
| FlowLifecycle.LeftoverThenActivation | blueprints/flow.py:536-562 | what a failed silent removal followed by an activation does: for any job and alert, an edit rolled back and an activation end with both armed |
| FlowLifecycle.SecondTriggerGoesStale | blueprints/flow.py:311-342 | an editor save with two triggers that leaves the old registration armed, as a concrete state and graph |
| FlowLifecycle.ActivationArms | blueprints/flow.py:567-628 | an activation answered with success leaves the workflow active and armed exactly as its graph asks |
| FlowLifecycle.SaveArms | blueprints/flow.py:311-342 | a save answered with success over a workflow armed as its graph asks leaves it active and armed exactly as the new graph asks if and only if the comparison sees a change or both graphs ask for the same, with any number of triggers |
| FlowLifecycle.DeactivationOutcome | blueprints/flow.py:646-705 | a deactivation answered with success leaves nothing armed and no feed; one that failed half-way still reads as active (DeactivateAnswers says when each is the answer) |
| FlowLifecycle.DeactivateAnswers | blueprints/flow.py:646-705 | a deactivation goes through if and only if the workflow is active, not running, every feed is let go, and the job removal and the row write work; Running, NotFound, FeedConnected, AlreadyInactive and Failed each told the same way, with the state a failure leaves |
| FlowLifecycle.ActivateAnswers | blueprints/flow.py:567-628 | an activation goes through if and only if the row is there and off, the gates let it through, the flag can be written and what its one trigger asks for (nothing for a webhook) can be registered; every other answer told the same way |
| FlowLifecycle.SaveAnswers | blueprints/flow.py:311-342 | an active workflow is stood down by a save if and only if the comparison sees a change and the old registration cannot be removed or the new one not made; otherwise the save succeeds and an unchanged comparison changes the graph alone |
| FlowLifecycle.UpdateAnswers | blueprints/flow.py:244-360 | when an edit is refused, finds no row, stands the workflow down and goes through, each if and only if |
| FlowLifecycle.ReplaceAnswers | blueprints/flow.py:1296-1410 | the same for a replacement, whose graph must have one trigger |
| FlowLifecycle.DeleteAnswers | blueprints/flow.py:363-413 | the same for a delete, with what it takes away before the row: alert and watch always, the job when its removal works, and nothing of an inactive workflow |
| FlowLifecycle.RunAnswers | services/flow_executor_service.py:4688-4698 | a run starts if and only if none runs and the row is there and runnable, and only a run subscribes to feeds |
| FlowLifecycle.DeletedHoldsNoFeed | blueprints/flow.py:363-413 | in every interleaving of runs with the routes a deleted workflow holds no feed and is not running |
| FlowLifecycle.TurnedOffFeedsExactly | blueprints/flow.py:631-705 | an active workflow that goes inactive holds no feed afterwards exactly when the deactivate route did it or it held none |
| FlowLifecycle.RefusalKeepsArmed | blueprints/flow.py:363-413 | a refusal leaves row, registrations and run lock as they were and only ever drops feeds; a feed still connected is the reason when it says so |
| FlowLifecycle.ArmedJobIsRecorded | blueprints/flow.py:447-512 | over every run an armed job's id is in the row, so it can be found again, also when storing an id failed on the way |
| FlowLifecycle.Platform.UnregisterTrigger | blueprints/flow.py:431-444 | the strict job removal first; when it raises, alert and watch are still there |
| FlowLifecycle.Platform.RegisterTrigger | blueprints/flow.py:447-512 | the job, the stored job id and the undo when the id cannot be stored, step by step, give the specified state and exception |
| FlowLifecycle.Platform.RollbackActivation | blueprints/flow.py:536-562 | the loop over the undo actions carries every one of them out whatever the others did |
| FlowLifecycle.Platform.ReregisterTrigger | blueprints/flow.py:515-533 | when it does not raise, exactly what the graph asks for is armed; when the old job cannot be removed nothing changes; never a second kind |
| FlowLifecycle.Platform.ActivateWorkflow | blueprints/flow.py:567-628 | success leaves it active and armed as its graph asks, a registration that raised and could be rolled back leaves it off and disarmed, a refusal changes nothing, and the invariants of every run are kept; success if and only if what ActivateAnswers says |
| FlowLifecycle.Platform.SaveGraph | blueprints/flow.py:311-342 | the new graph is stored whatever happens next; of an active workflow with a changed configuration it ends armed as the graph asks, or stood down with nothing armed; the invariants are kept; stood down if and only if what SaveAnswers says |
| FlowLifecycle.Platform.UpdateWorkflow | blueprints/flow.py:244-360 | a refused edit changes nothing, one without a graph changes neither graph nor registrations, any other stores exactly the given graph with it armed or stood down, and the invariants are kept; success if and only if what UpdateAnswers says |
| FlowLifecycle.Platform.ReplaceWorkflow | blueprints/flow.py:1296-1410 | a refusal changes nothing; otherwise the given graph, with its one trigger, is stored, and a workflow armed as its graph asked is armed as the new one asks on success; the invariants are kept; success if and only if what ReplaceAnswers says |
| FlowLifecycle.Platform.DeactivateWorkflow | blueprints/flow.py:646-705 | success if and only if the workflow is active, not running, its feeds let go and removal and write work, and then the row is off, nothing armed and no feed left; whatever fails half-way, the invariants are kept |
| FlowLifecycle.Platform.DeleteWorkflow | blueprints/flow.py:378-413 | success leaves no row and no feed, and nothing armed if and only if the silent removal worked or there was no job; short of success the row and its run stay, and a refusal only drops feeds; success if and only if what DeleteAnswers says |
| OrderPump.NeverMoreThanTenASecond | blueprints/chartink.py:184-204 | the history being the clock readings of the turns that took an order off the regular queue and had it accepted, told from queues and inputs alone: over every run with a clock that never goes back, stamps ten apart in it are more than a second apart, and the deque is its suffix still in the window |
| OrderPump.SpacedAt | blueprints/chartink.py:184-204 | what that spacing says of any two accepted stamps i and j with j at least i + 10 |
| OrderPump.AppendWindowed | blueprints/chartink.py:95 | under the limit an append evicts nothing by the deque's own bound |
| OrderPump.AppendKeepsTen | blueprints/chartink.py:95 | the deque keeps the last ten stamps |
| OrderPump.WindowKept | blueprints/chartink.py:184-204 | the suffix invariant over every run and that history, from any state that has it |
| OrderPump.OrdersConserved | blueprints/chartink.py:152-223 | per queue and over every run, pending ++ put equals attempted ++ still pending, in FIFO order, however each placement fares |
| OrderPump.SmartOrdersFirst | blueprints/chartink.py:158-204 | a turn takes the front smart order whenever one waits, the front regular one if and only if none does and fewer than ten stamps are left in the window, and changes no queue otherwise |
| OrderPump.SmartOneASecond | blueprints/chartink.py:155-181 | over every run of turns that start no earlier than the last sleep ended, any two smart orders in a row are taken a second apart at least |
| OrderPump.EventTells | blueprints/chartink.py:155-217 | what a turn reports is what it did: of which order, at the time read, and whether it was accepted |
| OrderPump.ProcessorRuns | blueprints/chartink.py:158-244 | an order put goes to the back of its own queue with a processor running then; a processor stops if and only if the item it takes is a pill |
| OrderPump.TurnWorks | blueprints/chartink.py:152-223 | every turn of a processor with an order to take lowers a measure of smart orders, regular orders and time left in the window |
| OrderPump.QueuesDrain | blueprints/chartink.py:152-223 | with no arrivals, no pill and an advancing clock both queues are empty after as many turns as that measure says |
| OrderPump.Processor.QueueOrder | blueprints/chartink.py:226-244 | the order goes to the back of its queue, a processor runs afterwards, and each queue's account (put so far == attempted ++ waiting) stays balanced |
| OrderPump.Processor.OneTurn | blueprints/chartink.py:155-217 | one round of the loop (smart queue, pill, window clean-up, limit, regular queue, stamp only on acceptance) keeps both accounts balanced, records the time of an order it took and had accepted, and keeps the deque what the window holds of the history |
| OrderPump.Processor.ProcessOrders | blueprints/chartink.py:152-223 | the loop is those turns one after another, ends before its clock readings do only on a pill, and loses, repeats or overtakes no order |
| ProcessorGuard.AtMostOneProcessor | blueprints/chartink.py:226-234 | in every interleaving of callers and processors at most one processor is live, and the flag is set exactly while one has not reset it |
| ProcessorGuard.StartIsServed | blueprints/chartink.py:91-92 | the idle start has both invariants |
| ProcessorGuard.QueuesMove | blueprints/chartink.py:155-244 | in any interleaving orders are put at the back and taken from the front, each queue by its own moves alone, and a processor is on its way out if and only if what it took was a pill |
| ProcessorGuard.PutOrdersAreServed | blueprints/chartink.py:237-244 | with no pill put, every order that was put has a live processor still in its loop |
| ProcessorGuard.StrandedExactly | blueprints/chartink.py:218-244 | orders come to wait without a processor if and only if a caller puts one after the processor it saw has reset the flag, or a processor leaves while some wait |
| ProcessorGuard.NextCallerServes | blueprints/chartink.py:226-234 | the next caller's check always ends that |
| ProcessorGuard.NeverStrandedWithoutAPill | blueprints/chartink.py:218-244 | over every interleaving without a pill it never happens |
| ProcessorGuard.PillStrandsAnOrder | blueprints/chartink.py:218-234 | were a pill ever put (nothing in the repository puts one), six steps leave an order queued with nobody to take it |
| ProcessorGuard.RegularAfterSmartSeenEmpty | blueprints/chartink.py:152-204 | in every interleaving a regular order is polled only by a processor that saw the smart queue empty and has done nothing else since |
| SquareoffJobs.NewRowReadable | blueprints/chartink.py:247-261 | a row is refused exactly when it is intraday with refused times; a stored one is active and wants a square-off exactly when intraday, at the time read from the text |
| SquareoffJobs.TimeReadsExactly | blueprints/chartink.py:292-316 | a text is read as a time of day if and only if it is that hour and minute, each in two digits or fewer, with a colon between |
| SquareoffJobs.TimesExactly | blueprints/chartink.py:247-261 | times are valid if and only if all three can be read and their minutes of the day increase; the other two verdicts name the first pair that does not |
| SquareoffJobs.SquareoffsCovered | blueprints/chartink.py:349-407 | in every interleaving of the single store and scheduler calls of creations, activations, deletions and restores, once a restore has completed each active intraday strategy with a time has its one job at that time, unless somebody is at that very strategy |
| SquareoffJobs.SettledMeans | blueprints/chartink.py:349-407 | what that says of a strategy nobody is at: it has its job, at its time |
| SquareoffJobs.OnTimeExactly | blueprints/chartink.py:292-316 | whatever fails, a job comes to be at another time than its strategy's if and only if a row is stored under an id that has a job at another time, or a job is added at a time read from an earlier row of that id |
| SquareoffJobs.ReusedIdMistimed | blueprints/chartink.py:349-407 | a strategy given the id of one that was deleted while a restore had it ahead ends with its job at the old time and nobody at work, for any two times |
| SquareoffJobs.VisitedIsItsCalls | blueprints/chartink.py:349-407 | a whole round of the restore's loop is its calls one after another |
| SquareoffJobs.RestoredCovers | blueprints/chartink.py:349-407 | a restore that completes leaves every active intraday strategy with a time with a job |
| SquareoffJobs.RestoreCompletesExactly | blueprints/chartink.py:349-407 | a restore completes if and only if every add it needs is of a readable time and works |
| SquareoffJobs.VisitLooks | blueprints/chartink.py:349-407 | the restore comes to each strategy it read once and stays at one that is active and intraday, with a time, and has no job |
| SquareoffJobs.NothingToDo | blueprints/chartink.py:349-407 | one restore runs at a time and none after one that completed; a strategy that is not there is neither toggled nor deleted |
| SquareoffJobs.RaisedCalls | blueprints/chartink.py:292-316 | a call the scheduler raises on ends whoever made it with no row and no job changed, and a restore whose own add it was does not complete |
| SquareoffJobs.FailedDeleteExactly | blueprints/chartink.py:624-651 | a deletion that could not delete the row loses the coverage if and only if the strategy was active and wanted its square-off |
| SquareoffJobs.OrphanExactly | blueprints/chartink.py:349-407 | whatever fails, a job without a strategy appears if and only if somebody's add is taken for a row deleted since it was read, or a row goes for which a job was added since the deletion looked for it |
| SquareoffJobs.VisitAfterDelete | blueprints/chartink.py:349-407 | from a start over any strategy: a deletion between a restore's reading and its visit leaves an orphan |
| SquareoffJobs.AddInsideDelete | blueprints/chartink.py:624-651 | from a start over any strategy: an activation between a deletion's look for the job and the row's removal leaves one too |
| SquareoffJobs.DeletedHaveNoJob | blueprints/chartink.py:624-651 | over every run in which no deletion overlaps with anybody else at its strategy or with a restore, a deleted strategy has no job, whatever fails |
| SquareoffJobs.Scheduler.AddSquareoffJob | blueprints/chartink.py:292-316 | an add the scheduler refuses also loses the job it would have replaced |
| SquareoffJobs.Scheduler.CreateStrategy | blueprints/chartink.py:531-595 | an intraday strategy that is stored has its job at the time asked for when the add works; refused times store nothing; coverage is kept, no other job is touched and no orphan made (schedule_squareoff at 283-289) |
| SquareoffJobs.Scheduler.ToggleStrategy | blueprints/chartink.py:796-819 | the flag flips; afterwards the strategy is covered when the add works; a job that is there stays as it is, no other is touched and no orphan made; coverage is kept (436-450) |
| SquareoffJobs.Scheduler.DeleteStrategy | blueprints/chartink.py:624-651 | the strategy's job is gone in any case and the row exactly when that is stored; no other job is touched and no orphan made; coverage is kept when stored |
| SquareoffJobs.Scheduler.RestoreSquareoffJobs | blueprints/chartink.py:349-407 | the loop over the strategies does the visits of the model and sets the flag last; when it sets it, every strategy is covered; one that is done already or cannot read changes nothing |
| SquareoffJobs.Scheduler.RetryChain | blueprints/chartink.py:411-433 | with other requests changing strategies, jobs or the flag between attempts: it calls the restore until all is restored or another attempt cannot be booked, thirty times at most, every earlier one having booked the next; if its last attempt restored them every strategy is covered |
| TurnRecorder.ProseInOrder | blueprints/agent.py:1990-2039 | the stored text is the concatenation of every delta in order |
| TurnRecorder.FirstFourCharts | blueprints/agent.py:2017-2024 | the charts are the first four, in order |
| TurnRecorder.NoticesInOrder | blueprints/agent.py:2029-2035 | notices, errors and confirmations are kept in order, and a turn is paused exactly when a confirmation was seen |
| TurnRecorder.UsageIsLast | blueprints/agent.py:2025-2028 | the usage is the last one seen |
| TurnRecorder.LastStartNamesTheRun | blueprints/agent.py:2001-2003 | run and session are those of the last start frame |
| TurnRecorder.SidecarInOrder | blueprints/agent.py:2041-2063 | beside the prose of a whole stream are stored, entry by entry, its notices, its first four charts, its markup in one piece, its last usage and the run of its last start, and nothing else |
| TurnRecorder.ContentExactly | blueprints/agent.py:2065-2067 | a turn is worth storing exactly when a frame other than a start or an unknown one came |
| TurnRecorder.StoredExactly | blueprints/agent.py:2157-2179 | a turn is stored if and only if a frame with content came, its session (if it has one) could be bound and the write worked; what is stored is its prose, its tools and that sidecar |
| TurnRecorder.ToolsRefineTheStream | blueprints/agent.py:1999-2016 | over every stream the tool entries are one per start and one per end without an open start, in order, and each end completes the latest open start with its id |
| TurnRecorder.OpenPointsAtUnended | blueprints/agent.py:1999-2016 | the open table only ever points at un-ended entries of its own call |
| TurnRecorder.Recorder.ObserveFrame | blueprints/agent.py:1990-2035 | with entries shared between list and table, one frame leaves the object reading as the fold of one frame more |
| TurnRecorder.Recorder.ObserveTool | blueprints/agent.py:1999-2016 | the same for the frames that create, share and complete entries |
| TurnRecorder.Recorder.Persist | blueprints/agent.py:2157-2179 | what is stored is what the fold says; a session that cannot be bound takes the message with it |
| TurnRecorder.RecordStream | blueprints/agent.py:2070-2111 | the client gets exactly the delivered chunks, unchanged, and a started stream stores exactly what their frames fold to |
| TurnRecorder.CutShortExactly | blueprints/agent.py:2070-2111 | what is delivered falls short of what was asked for if and only if one of those chunks is JSON but no object |
| TurnRecorder.NotAnObjectAlone | blueprints/agent.py:2070-2111 | such a chunk alone: nothing reaches the client and nothing is stored |
| TurnRecorder.PassOn | blueprints/agent.py:2096-2106 | the loop records each chunk before it hands it on, and stops only where the stream, the client or a frame that is no object stops it |
| TurnRecorder.PartialTurnKept | blueprints/agent.py:2096-2111 | wherever the client leaves, the stored turn has the prose and the tool entries of exactly the delivered frames |
| TurnRecorder.SidecarCarriesItsRun | blueprints/agent.py:2041-2063 | read the way truncation reads it, a stored row gives back its own run id and no other |
| TurnRecorder.TruncationForgetsTheirRuns | blueprints/agent.py:1860-1865 | the runs collected from removed answers are each answer's run, once and in order |
| StreamSlots.SlotsConserved | utils/stream_registry.py:81-137 | over every interleaving of any number of requests the open count of each kind is the number of unreleased tickets, which is the number of requests that still hold a slot |
| StreamSlots.ReleaseConserved | utils/stream_registry.py:81-87 | the first release takes one slot off and later ones nothing; the floor at zero never comes into it |
| StreamSlots.GivenBackOnce | utils/stream_registry.py:81-87 | in any table giving a slot back takes one off its kind's count, never below zero, and off no other |
| StreamSlots.EverySlotComesBack | blueprints/agent.py:2114-2154 | once all requests are over, however each ended, every count is zero |
| StreamSlots.NeverOverTheLimit | blueprints/agent.py:2130-2134 | a kind (other than the overflow bucket) always asked for with a limit never has more open |
| StreamSlots.RefusedExactly | utils/stream_registry.py:112-137 | a request is turned away exactly when its bucket holds as many slots as the limit |
| StreamSlots.TableStaysSmall | utils/stream_registry.py:93-97 | the table never holds more than the tracked kinds and the overflow bucket |
| StreamSlots.StreamRegistry.Admit | utils/stream_registry.py:112-137 | one more in the kind's bucket and a fresh ticket, or nothing changed |
| StreamSlots.StreamRegistry.Release | utils/stream_registry.py:81-87 | the first call marks the ticket and gives one slot of its kind back, every later call changes nothing |
| StreamSlots.StreamRegistry.WithStreamSlot | blueprints/agent.py:2114-2142 | the counts differ afterwards by one slot exactly when the body came back with a stream |
| StreamSlots.StreamRegistry.EndStream | blueprints/agent.py:2096-2154 | the two hooks, in either order, started or not, give back one slot between them |
| StreamSlots.WholeTurn | blueprints/agent.py:2114-2154 | a whole turn, however it goes, leaves every count as it found it |
| RunOptions.RuntimeLinesBounded | blueprints/agent.py:2246-2270 | whatever the client sent, at most ten lines of at most 162 characters |
| RunOptions.RuntimeLinesAre | blueprints/agent.py:2246-2270 | they are the lines of the first ten fields that have a value, in the order of their names |
| RunOptions.LineIs | blueprints/agent.py:2266-2267 | a line is the name, cut to 40 characters, a colon and the value as text, cut to 120 |
| RunOptions.EffortExactly | blueprints/agent.py:2235-2243 | an effort is accepted if and only if it is one of four words, whatever its case and the space around it; none is what null and the empty text ask for |
| RunOptions.WebExactly | blueprints/agent.py:2385-2408 | the web is off if and only if one of the values told here was sent |
| RunOptions.NoticeHolds | blueprints/agent.py:2455-2504 | nothing is stored beside a plain message, and the files of one that has them stand in an entry of their own, last |
| RunOptions.OrderOfFieldsIrrelevant | blueprints/agent.py:2264 | the lines do not depend on the order of the client's fields |
| RunOptions.OptionsRecovered | blueprints/agent.py:2455-2539 | what the notice stored is read back exactly, with or without attachments |
| RunOptions.RequestRoundTrip | blueprints/agent.py:2235-2270 | the same for every request the validators let through |
| RunOptions.AlwaysFit | blueprints/agent.py:2507-2539 | from any stored JSON at all, an effort from the list, at most ten lines of at most 200 characters |
| RunOptions.ResumeReachesTheWebExactly | blueprints/agent.py:2837-2845 | a resume reaches the web if and only if its client allows it and no latest operator turn that switched it off was read |
| RunOptions.ResumesNeverWiden | blueprints/agent.py:2837-2845 | over any number of resumes of a turn that stays the latest and readable, effort and lines are the resuming client's if it sent any and the turn's otherwise, and the web is on if and only if both allow it |
| RunOptions.BareResumeRebuildsTheTurn | blueprints/agent.py:2837-2845 | a resume that sends nothing of its own is built exactly as the turn was |
| RunOptions.TruncatedIsForgotten | blueprints/agent.py:2411-2438 | a turn cut off the chat counts no more: with none before it a resume is built from what its own client sent |
| RunOptions.LaterTurnWidens | blueprints/agent.py:2411-2438 | a second question with search on, asked while the first is paused, widens the first's resume |
| RunOptions.RenderLines | blueprints/agent.py:2246-2270 | the loop with its early stop gives the specified lines |
| RunOptions.ReadOptions | blueprints/agent.py:2507-2539 | the loop stops at the first entry of its type |
| RunOptions.FindLastUser | blueprints/agent.py:2411-2438 | the reverse loop over the newest 500 rows (database/agent_db.py:1626-1648) finds the last operator row, or none |
| BrokerKeys.LiveSessionMatchesItsKeys | blueprints/broker_config.py:176-193 | in every interleaving of logins, resumes, registrations, saves, forgets, sign-outs and rollovers, a session that is live or still to be registered was opened with the keys stored for its broker at the time, all along, if and only if no step is one of the three of FitsExactly |
| BrokerKeys.FitsExactly | blueprints/broker_config.py:270-317 | every step keeps it if and only if it is none of those three |
| BrokerKeys.SoundRunsNeverBreak | blueprints/broker_config.py:176-193 | working revocations, leases that hold while keys change and resumes of unchanged keys are enough, over every run |
| BrokerKeys.SaveFitsExactly | blueprints/broker_config.py:270-317 | a save breaks that if and only if it passes its checks and changes the keys of a session that survives it, told from the state before |
| BrokerKeys.ForgetFitsExactly | blueprints/broker_config.py:356-379 | a forget breaks it if and only if it passes its checks and a session survives it |
| BrokerKeys.CommitFitsExactly | utils/auth_utils.py:535-612 | a commit breaks it if and only if it passes its checks with a token opened with other keys than those staged now |
| BrokerKeys.CommitStores | utils/auth_utils.py:535-700 | a commit that passes its checks stores the login's own token and signs the devices out if and only if it takes over from a current session of another broker; any other changes nothing |
| BrokerKeys.CurrentUntil | utils/auth_utils.py:700-810 | a registration needs a committed login of its own and makes whatever session is stored a current one; after a sign-out or the rollover a session is current if and only if its broker is recorded or outlives the day (utils/broker_keys.py:432-495) |
| BrokerKeys.StaleResume | blueprints/auth.py:273-387 | yesterday's session, keys saved over it, and a resume the broker accepts: live with keys no longer stored |
| BrokerKeys.LapsedLease | utils/auth_utils.py:624-810 | a login overtaken by its slot's lease between commit and registration, with a save in between |
| BrokerKeys.ResumesRunAlone | utils/broker_keys.py:696-729 | over every run a slot held exclusively has one holder |
| BrokerKeys.BeginsExactly | utils/broker_keys.py:696-729 | a login is turned away if and only if somebody holds the slot with whom it cannot be shared; one let in holds it for 120 seconds next to the others of its broker, with the keys stored now staged |
| BrokerKeys.EndFrees | utils/broker_keys.py:732-739 | a login that ends leaves the slot to the others that hold it, or free |
| BrokerKeys.BlankKeepsKeys | blueprints/broker_config.py:229-238 | a save of blank fields, whatever its redirect, changes no broker's keys |
| BrokerKeys.SaveStores | blueprints/broker_config.py:200-329 | a save answers Done if and only if it passes its checks, and then, for a row, a new row and the .env broker alike, each of the four fields is the one given or, left blank, the one stored before |
| BrokerKeys.ForgetStores | blueprints/broker_config.py:336-390 | a forget answers Done if and only if it passes its checks, and then that row and its redirect are gone and all others are there |
| BrokerKeys.ReasonsHold | blueprints/broker_config.py:200-390 | a save or a forget that is refused is refused for the reason it answers |
| BrokerKeys.RedirectStored | blueprints/broker_config.py:283-308 | the .env file always holds the address in full, a row none for the automatic one |
| BrokerKeys.RedirectTakesEffect | blueprints/broker_config.py:283-308 | a given redirect takes effect, an empty one as the automatic address, whichever way it is stored, and no other broker's changes |
| BrokerKeys.SaveOutcome | blueprints/broker_config.py:200-329 | a stored save keeps or replaces each field as SaveStores says, leaves every other broker's keys, and ends a session only for new keys of the logged-in broker, confirmed |
| BrokerKeys.ForgetOutcome | blueprints/broker_config.py:336-390 | a forget removes that row only, never the .env broker's, and ends the session only if it is that broker's |
| BrokerKeys.RefusalsChangeNothing | blueprints/broker_config.py:336-390 | a refused save or forget changes nothing, except that a failed removal comes after the session was ended |
| BrokerKeys.LoginKeepsItsKeys | blueprints/broker_config.py:270-273 | while a login holds the slot no step changes the keys of its broker |
| BrokerKeys.ResolvesStored | utils/broker_keys.py:373-399 | a login uses the keys stored for its broker, and a row without an API key counts as none |
| BrokerKeys.Deployment.HoldLoginSlot | utils/broker_keys.py:696-729 | a holder let in holds the slot for its broker, next to nobody but holders of the same broker's slot none of whom asked for it alone, and puts out nobody who still held it; one turned away found the slot busy |
| BrokerKeys.Deployment.ReleaseLoginSlot | utils/broker_keys.py:732-739 | exactly the other holders still hold it, and it is busy if and only if there was another |
| BrokerKeys.Deployment.BeginBrokerLogin | utils/auth_utils.py:489-512 | a login that begins holds the slot with the keys stored now staged, one refused for want of keys holds nothing, no other login is touched, and the match of session and keys is kept |
| BrokerKeys.Deployment.CommitLogin | utils/auth_utils.py:535-700 | only a holder whose staged keys are still stored commits; what is stored then matches its keys if and only if the token was opened with them; anything else changes nothing |
| BrokerKeys.Deployment.EndBrokerSession | blueprints/auth.py:1423-1458 | no device stays signed in; a session revoked is not live, and one still live was live before and needs no device; the match is kept |
| BrokerKeys.Deployment.SaveBroker | blueprints/broker_config.py:200-329 | the match of live session and keys is kept if and only if the save does not break it; no other broker's keys change and none a login under way works with; blank fields keep their value; new keys of the live broker sign it out, confirmed; a refusal changes nothing |
| BrokerKeys.Deployment.ForgetBroker | blueprints/broker_config.py:336-390 | the match is kept if and only if the forget does not break it, with the same frame; success leaves no keys for the broker, anything else all of them; its session is over by the time the removal is tried, and no other refusal touches it |
| EnvEditor.SetLines | blueprints/admin.py:2535-2559 | the first line assigning the key becomes the new assignment or it is added at the end; every other line keeps content and place |
| EnvEditor.SetReads | blueprints/admin.py:2510-2559 | setting then reading gives the value |
| EnvEditor.SetReadsExactly | blueprints/admin.py:2529-2534 | for a reader that splits lines as the editor does, an accepted value is read back if and only if it holds no character that ends a line |
| EnvEditor.SetKeepsOthers | blueprints/admin.py:2541-2551 | setting one key changes what no other key reads |
| EnvEditor.SetTwice | blueprints/admin.py:2510-2559 | setting twice is setting last |
| EnvEditor.SetTwiceExactly | blueprints/admin.py:2529-2559 | setting an accepted value and then a clean one is setting the clean one if and only if nothing in the first ends a line: otherwise pieces of it stay in the file as lines |
| EnvEditor.AssignsOneKey | blueprints/admin.py:2541 | no line assigns two keys |
| EnvEditor.LastReaderExactly | blueprints/admin.py:2541-2547 | a reader that takes the last assignment sees the new value if and only if the key is not assigned again further down or already had it there |
| EnvEditor.LineEndsNormalised | blueprints/admin.py:2539-2559 | after any edit the whole file has plain newlines |
| EnvEditor.EndIsNewline | blueprints/admin.py:2539-2540 | each way a line can end in the file is read as one newline |
| EnvSaves.NoSaveLost | blueprints/admin.py:2535-2559 | in every interleaving of writers the file is what the finished saves give one by one in the order written |
| EnvSaves.RequestsLandTogether | blueprints/admin.py:2650-2670 | no save of another request lands between the keys of one |
| EnvSaves.TogetherBetween | blueprints/admin.py:2650-2670 | what that means for any two saves of one request |
| EnvSaves.RequestLands | blueprints/admin.py:2650-2670 | a request that arrives while the lock is free can take it, and all its keys land in the order asked for |
| EnvSaves.FailureFrees | blueprints/admin.py:2650-2670 | a write that fails gives the lock back and changes no text |
| EnvSaves.ReplayReads | blueprints/admin.py:2510-2559 | after any run of saves every key reads as its last save, or as before |
| EnvSaves.RefusedExactly | blueprints/admin.py:2510-2534 | an edit is refused if and only if its key is not a capital with capitals, digits and underscores behind it (and one newline at most) or its value holds a quote, a backslash or a newline |
| EnvSaves.EnvFile.SetEnvValue | blueprints/admin.py:2510-2559 | the loop over the lines with its break, the missing newline and the append give the specified text, or an error and no change |
| EnvSaves.EnvFile.SaveSettings | blueprints/admin.py:2650-2670 | the keys of a request are stored up to the first that is refused or whose own write fails, and the file is the replay of exactly those |
| LogWindow.TailIsSuffix | blueprints/admin.py:748-770 | for every file and byte bound the window is a suffix of the file's list of whole lines, and all of it when the file fits, also when the cut falls inside a character (WindowHolds says how much of it) |
| LogWindow.WindowHolds | blueprints/admin.py:748-770 | of a file of any size every line that starts behind the cut is in the window, whole and in its place |
| LogWindow.WindowIs | blueprints/admin.py:748-770 | of a file over the bound the window is the lines of the bytes behind the cut less the first |
| LogWindow.LineAtTheCutIsDropped | blueprints/admin.py:766-770 | a line that starts exactly at the cut is dropped as one cut in two would be |
| LogWindow.FileReadsBack | blueprints/admin.py:765-770 | lines written one after another are read back from the bytes of the file, however many there are |
| LogWindow.LineEnds | blueprints/admin.py:766 | a line is what stands before the first end, which belongs to no line, a carriage return and a newline being one |
| LogWindow.BreaksAre | blueprints/admin.py:766 | the ten characters that end a line, and no other |
| LogWindow.NoFileNoLines | blueprints/admin.py:748-756 | a file that is missing or empty has no lines |
| LogWindow.EncodedReads | blueprints/admin.py:765 | every text written as UTF-8 (section 3 of RFC 3629) decodes to itself |
| LogWindow.OnlyWrittenReads | blueprints/admin.py:765 | and a character is read only from the bytes it is written as; any others give the replacement |
| LogWindow.Resync | blueprints/admin.py:748-770 | from a cut on, the decoder meets the whole file's decoding again at the next whole character |
| LogScan.Scan | blueprints/admin.py:811-834 | the reversed scan with its early exit, reversed again, is exactly the last min(limit, matches) matching entries in file order, looks no further than it has to, and the total is every entry of the window (also 2384-2414) |
| LogScan.Page | blueprints/admin.py:790-834 | a page is that scan of the last ten megabytes with the request's limit clamped to its cap; a file that is missing gives an empty page (also 2366-2414) |
| LogScan.WindowShowsTheFileExactly | blueprints/admin.py:811-834 | a page shows what it would show of the whole file if and only if the window holds enough matches or all of them |
| LogScan.NewestAreShown | blueprints/admin.py:811-834 | with as many matches behind the cut as asked for, a page shows the newest matches of the whole file |
| LogScan.LineIsEntry | blueprints/admin.py:773-787 | a line is an entry if and only if, without the space around it, it is not empty and decodes to an object |
| LogScan.Limit | blueprints/admin.py:793-798 | always between 1 and the cap, the asked number when it is, the nearer of the two when it is not, and 100 for one that is no number |
| ErrorGroups.CountAndHead | blueprints/admin.py:1104-1122 | a group counts its entries and shows level, logger and module of the first |
| ErrorGroups.LatestIs | blueprints/admin.py:1123-1137 | last seen is the latest timestamp, and the sample the last entry that carries it, or the first entry when none has one |
| ErrorGroups.FirstSeenExactly | blueprints/admin.py:1126-1127 | first seen is the earliest timestamp if and only if none is empty or the last one is |
| ErrorGroups.CountsAddUp | blueprints/admin.py:1104-1137 | the counts add up to the entries read |
| ErrorGroups.MarksAsFirstSeen | blueprints/admin.py:1104-1122 | of two groups the one listed first was seen before the other ever was |
| ErrorGroups.TopOutranksTheRest | blueprints/admin.py:1139-1144 | no group left out outranks one returned, and together they are all the groups |
| ErrorGroups.PageIsRanked | blueprints/admin.py:1139-1144 | the page itself goes by the number of entries, most first, and among as many by the time last seen, latest first |
| ErrorGroups.TiesKeepTheirOrder | blueprints/admin.py:1139-1144 | groups that rank the same stay in the order first seen |
| ErrorGroups.GroupErrors | blueprints/admin.py:1104-1156 | the pass over a dictionary of groups gives, per fingerprint in order of appearance, the group of exactly its entries, then the top of the sort |
| SignIn.NeverBoth | blueprints/auth.py:466-492 | over every trace no session holds a signed-in user and a pending one |
| SignIn.SignedInWasEarned | blueprints/auth.py:90-109 | over every trace a signed-in user passed the password step since the session was last wiped, and a code at most 300 seconds later if one was required then |
| SignIn.SignsInExactly | blueprints/auth.py:551-591 | only a right password of an account without `totpEnabled` and `totpForLogin` both on, or a right code for a login parked at most 300 seconds ago, signs anyone in |
| SignIn.EventsTell | blueprints/auth.py:466-492 | what the log says of a right password or code is the request's user and time, and whether the account's switches asked for a code at that step |
| SignIn.PasswordAnswers | blueprints/auth.py:411-492 | a login request is let through to the password unless there is no account or somebody is signed in; a right password then signs in or, by those switches, parks the login at that time, in either case over a wiped session |
| SignIn.CodeAnswers | blueprints/auth.py:537-607 | a code comes too late, is wrong, or signs the parked user in and stamps the second factor, each if and only if |
| SignIn.WipedExactly | blueprints/auth.py:420-535 | a session is wiped if and only if the site itself logs out or one of three requests finds its broker login ended; whoever is signed in stays so otherwise |
| SignIn.BrokerInExactly | blueprints/auth.py:483-601 | a broker login begins with its own request for a signed-in user or with a sign-in that resumes one, and not otherwise |
| SignIn.VerifiedExactly | blueprints/auth.py:576-591 | the time of the second factor is that of the last right code, forgotten with a wipe or a new password |
| SignIn.ExpiredNeedsThePassword | blueprints/auth.py:93-109 | once a pending login has run out, no run of requests without a right password signs anyone in |
| SignIn.ConfigureExactly | blueprints/auth.py:631-684 | an account changes if and only if a signed-in user with a valid session gives a right code, and then it is that user's own, each purpose on only if asked for with the master switch on |
| SignIn.ConfigureRefusals | blueprints/auth.py:631-684 | why a change is refused, each reason if and only if, and that a session still valid is then left alone |
| SignIn.BrowserSession.Login | blueprints/auth.py:411-492 | never a signed-in user next to a pending one, and whoever is either has earned it; success is the asked user with a right password and no code required, a parked login is the asked user's with the time of now, and anything else signs nobody in |
| SignIn.BrowserSession.LoginCode | blueprints/auth.py:537-607 | success if and only if a right code comes for a login parked at most 300 seconds ago, and then it is that login's user; a wrong code keeps the parked login, a late one ends it; the same invariants |
| SignIn.BrowserSession.ConfigureTwoFactor | blueprints/auth.py:631-684 | success if and only if a signed-in user of a valid session gives a right code; then its own account alone changes, no purpose on with the master switch off; anything else changes no account; the same invariants |
| SignIn.BrowserSession.LogOut | blueprints/auth.py:1515-1548 | a foreign request changes nothing; any other leaves nobody signed in or pending, and the log says so |
| ExpiryCodes.Rearranges | blueprints/flow.py:1596-1625 | the list is a rearrangement without duplicates of the codes of the non-blank entries |
| ExpiryCodes.ChronologicalThenAsSeen | blueprints/flow.py:1596-1625 | dated codes first and in the order of year, month and day, the others after them in first-seen order |
| ExpiryCodes.OrderedStays | blueprints/flow.py:1596-1625 | applied to its own output it changes nothing |
| ExpiryCodes.CodeStays | blueprints/flow.py:1605-1615 | a code made of a code is that code, it has a date exactly when the text had one, and without one it is the text itself in upper case |
| ExpiryCodes.EveryFormIsCoded | blueprints/flow.py:1605-1613 | every valid date, in each of the four forms, with or without a leading zero, parses to the date the form stands for, and no other format takes it first |
| ExpiryCodes.ReadExactly | blueprints/flow.py:1605-1613 | a text is read as a date if and only if it is one of that date's writings: four forms, each with or without a leading zero |
| ExpiryCodes.Calendar | blueprints/flow.py:1605-1613 | the dates there are: the days of each month, leap years by the Gregorian rule |
| ExpiryCodes.CenturyExactly | blueprints/flow.py:1615-1620 | a code sorts by the date it was made from if and only if that date lies from 1969 to 2068 |
| ExpiryCodes.SortedExpiryCodes | blueprints/flow.py:1596-1625 | the loop and the sort give that list |

## Left out

- FlowLifecycle: activate and update are atomic steps, because the race of two such requests is not locked in the source; only delete, deactivate and runs share the run lock.
- FlowLifecycle: the validators are inputs (`valid`, `runnable`), a registration is the fields handed over with their defaults, and the captured API key is not part of it.
- FlowGraph: defaults that the scheduler or a monitor applies further down (an interval of 1, for one) still count as different from a missing field, as do two spellings of one price; a price text that is no number is a registration that raises, an input (`arm`).
- FlowLifecycle: what scheduler, price monitor and order monitor do once armed; a feed is a number and its release is confirmed or not.
- The webhook's time-window gates and queueing loop in `blueprints/chartink.py`: branches over one request that would only add easy members.
- OrderPump: the clock readings are inputs, real numbers that do not decrease; sleeping is time that passes between them.
- ProcessorGuard: what a processor does inside a turn is in OrderPump; here a turn is its queue operations.
- SquareoffJobs: the eventlet worker, where nothing is restored, and the trading-hours checks of the webhook.
- SquareoffJobs: each call to the store or the scheduler is one step, also the one that reads a row and stores it flipped.
- SquareoffJobs.SquareoffsCovered: takes as given that requests' adds of readable times are taken and deletes stored, and that an id is given out again only when nobody is at it and no restore has it ahead, which ReusedIdMistimed shows to be needed.
- TurnRecorder: call ids are strings, so that an id and its `str()` are one; tool arguments, results and frame bodies are opaque strings.
- TurnRecorder.RecordStream: an upstream that raises is the end of its chunks; the cancelling of the run is not modelled.
- StreamSlots: peaks, the headroom warning and the drain at shutdown.
- RunOptions: `str()` of a list or mapping is only its brackets, and only ASCII letters change their case, which is all the compared words can depend on.
- BrokerKeys: the published process environment, pins and staging per request, the switch refusals (inputs), linked instances, the format checks of a key (one input each), and encryption at rest; two keys are compared as values where the source compares digests.
- EnvEditor: the atomic replace, file modes and encoding; a failed write leaves the file as it was.
- EnvEditor.SetReadsExactly: reads with the editor's own rule for lines, while python-dotenv reads a quoted value across such characters; SetTwiceExactly speaks of the file itself.
- LogScan: the JSON decoder, the filters of the two pages and the field whitelist are parameters.
- ErrorGroups: timestamps that are neither absent nor a string, and how a fingerprint is made.
- SignIn: hashing, TOTP arithmetic, rate limits, CSRF, the broker callback of XTS brokers, which signs a browser in by itself, and password reset.
- ExpiryCodes: digits and month names other than ASCII ones, which Python's date parser also takes, and the upper case of other letters than those of ASCII and the long s.
- Flask routing, JSON envelopes, logging, Socket.IO notices and the thin service wrappers.
