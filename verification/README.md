# qa-core, modelled and proved

qa-core turns requirements into test suites, and recordings into minutes, by driving a language model
behind a single-worker queue that every browser watches live. This project states what that service does
and proves what it is for:

* **The queue.** `Submit` is two critical sections with a channel send between them; the worker receives,
  starts and finishes in separate ones. `QueueCore` gives each critical section as a function on the guarded
  data, `QueueManager` implements them in a class over the same fields, and `QueueProtocol` lets any number of
  submitters and the worker interleave them. `QueueTheorems`, `QueuePositions` and `Estimates` say what holds
  in every state of every run: the job table, first-in first-out service, retention, memory, positions,
  waiting times; `JobStories` what each entry holds, from its submission to its outcome.
* **The live status.** `LiveStatus` adds the publishers, the coalescing capacity-1 tick channels and the
  event-stream handlers, and proves that no wake-up is lost; `LiveRuns` that every one can be delivered, and
  what can stay stale. `Sse` is the broadcaster as a class, and `View` what the browser is told. `Worker` runs
  a job through its runner, and `Uploads` follows the uploaded recordings through the same runs.
* **The pipeline.** `Orchestrator` is the batched generation run, `Coverage` its matrix and score, `Export`
  the views derived from them, `Scoring` the scorer of qa-ai. `CaseClasses` says which cases and ambiguities
  count as what, and `Results` what a run returns, publishes, asks and shows, in terms of what the stages
  answered. `Assembly` and `TraceabilityLaws` prove that the suite, the snapshots, the matrix, the gap counts
  and the score agree with one another in every run, and `Forms` that criteria curated by hand stay traceable.
* **The minutes.** `Chunks` cuts a transcript into overlapping windows, and `MomRun` is the run around it.
  `ProgressReport` is the plan both kinds of run publish.

Concurrency is modelled with one atomic step per critical section or channel operation. `Act` and `LiveAct`
list the steps; a run is any legal sequence of them, and a theorem "in every run" quantifies over all of
those. What the language model, the disk and the clock answer is a parameter of each run, so every theorem
holds for all answers.

Some things one would expect turn out not to hold of the code. Each is stated with the exact condition
under which it does, and a run or an input that shows the failure:

| expectation | holds exactly when | shown by |
|---|---|---|
| on every continuation that starts it, a waiting job starts in the place its position says | it is sent and has the same place in the queue list as in the line the worker serves, or nothing can start it any more (worker stopped, channel seen full); while submissions do not overlap, always | `HonestExactly`, `SequentialPositions`, `OverlapMisleads` |
| a browser with nothing on its way to it shows the present queue length | its last read saw as many unannounced submissions (in flight or rejected) as the queue holds now; neither the append nor the roll-back is announced | `SnapshotFreshExactly`, `AppendNotShown`, `PhantomStaysShown` |
| it shows the present position of a job | the job is in both states or in neither, and as many unannounced submissions stood ahead of it in the read as do now | `JobViewFreshExactly`, `QuietJobView` |
| a case pinned to its batch's criterion counts as covering it | the criterion's ID has no white space at its ends, as curated IDs never have and the analysis's may | `PinExactly`, `UntrimmedIdIsAGap`, `AnalysisCanLeaveAGap` |
| the step label between steps names the last finished step | no step before it failed (steps of one title aside); after a successful run, every batch and the extras succeeded | `LabelExactly`, `RunShown`, `LabelMisleads` |
| an error leaves no step running | it is neither the write of the transcript nor that of a partial that fails | `MomRun.Run`, `TranscriptWriteLeavesRunning`, `PartialWriteLeavesRunning` |
| every word is in some chunk | the overlap is not negative, or the text fits one window | `RunsExactly` with runs of one word |
| `itoa` prints every int | it is not the most negative one | `Text.Itoa` |

## Model

| member | source | states |
|---|---|---|
| Eta.Tracker.constructor | services/qa-core/internal/eta/eta.go:19-24 | A new tracker is empty, with the default window of 20 when asked for less than one sample |
| Eta.Tracker.Record | services/qa-core/internal/eta/eta.go:27-37 | The samples become the last `window` of the old ones and the new duration; durations that are not positive change nothing |
| Eta.Tracker.Average | services/qa-core/internal/eta/eta.go:41-52 | Gives the mean of the samples, the total t of n samples with avg * n <= t < avg * n + n, and says there is none when there are no samples |
| Eta.ReplayIsWindow | services/qa-core/internal/eta/eta.go:27-37 | After any history of calls the samples are the last `window` positive durations of the whole history |
| Eta.MeanWithinWindow | services/qa-core/internal/eta/eta.go:27-52 | After any history the average exists exactly when the window holds a positive duration, is positive, and lies within any bounds of the windowed durations |
| Eta.PositivesConcat | services/qa-core/internal/eta/eta.go:27-37 | The positive durations of a longer history are those of its parts, in order |
| Eta.PositivesOne | services/qa-core/internal/eta/eta.go:27-30 | A duration counts, once, exactly when it is above zero |
| Eta.SumConcat | services/qa-core/internal/eta/eta.go:47-50 | The total of two stretches of samples is the sum of their totals |
| Eta.SumOne | services/qa-core/internal/eta/eta.go:47-50 | The total of one sample is that sample, and of none zero |
| Eta.SumReordered | services/qa-core/internal/eta/eta.go:47-50 | The total does not depend on the order of the samples |
| Eta.MeanExactly | services/qa-core/internal/eta/eta.go:47-51 | The mean of n samples with total t is the one avg with avg * n <= t < avg * n + n |
| QueueManager.RemoveId | services/qa-core/internal/queue/queue.go:386-393 | Removes the first occurrence of an id and keeps the order of the others |
| QueueManager.FindId | services/qa-core/internal/queue/queue.go:395-402 | Finds the first index of an id, or -1 |
| QueueManager.Manager.constructor | services/qa-core/internal/queue/queue.go:176-197 | An empty manager, with 256 places and 200 retained jobs by default, with or without an ETA tracker |
| QueueManager.Manager.Register | services/qa-core/internal/queue/queue.go:208-219 | Submit's first critical section: the job is filed and appended to the queue, nothing else changes |
| QueueManager.Manager.Unregister | services/qa-core/internal/queue/queue.go:226-229 | The roll-back: the job leaves the table and the queue, nothing else changes |
| QueueManager.Manager.SendOrRollBack | services/qa-core/internal/queue/queue.go:221-233 | Whatever happened since the first section: with room in the channel the job is sent and announced; without, it is withdrawn from the guarded state and nobody is told |
| QueueManager.Manager.Submit | services/qa-core/internal/queue/queue.go:207-234 | Without interference, accepted exactly when the channel has room; a rejection leaves no trace |
| QueueManager.Manager.Receive | services/qa-core/internal/queue/queue.go:236-245 | The worker takes the oldest sent job; the guarded state does not change |
| QueueManager.Manager.StartJob | services/qa-core/internal/queue/queue.go:248-254 | The job leaves the queue, becomes the running one and is announced |
| QueueManager.Manager.EndJob | services/qa-core/internal/queue/queue.go:264-286 | The job is in the table and holds exactly the value or the message the runner ended with; its plan and partial, and every other entry that is kept, are as they were; a success's duration is sampled, the job joins the finished ones, the oldest are evicted, and one announcement is made |
| QueueManager.Manager.EvictLocked | services/qa-core/internal/queue/queue.go:290-296 | The loop computes the eviction of QueueCore and keeps the table and the channel consistent |
| QueueManager.Manager.RunOne | services/qa-core/internal/queue/queue.go:247-286 | Without interference, the whole of a job's run on the guarded state, with two announcements; the job then holds the outcome, and the other kept entries are as they were |
| QueueManager.Manager.EtaAvg | services/qa-core/internal/queue/queue.go:371-376 | The mean of the samples, and none without a tracker |
| QueueManager.Manager.Get | services/qa-core/internal/queue/queue.go:298-303 | Finds exactly the jobs of the table |
| QueueManager.Manager.ReadSnapshot | services/qa-core/internal/queue/queue.go:316-330 | Reads the busy flag, the running job, the queue length and the average off the guarded state |
| QueueManager.Manager.ReadJobView | services/qa-core/internal/queue/queue.go:343-368 | Reads a job's state, 1-based position, plan and waiting estimate off the guarded state |
| QueueCore.WithdrawUndoesEnqueue | services/qa-core/internal/queue/queue.go:216-230 | The roll-back of a fresh submission restores exactly the state its first critical section found |
| QueueCore.EvictKeepsNewest | services/qa-core/internal/queue/queue.go:290-296 | Eviction keeps the newest `retain` completions in order, forgets exactly the older ones, and touches nothing else |
| QueueProtocol.PlacesApart | services/qa-core/internal/queue/queue.go:207-296 | Waiting, running and finished never overlap and hold nothing twice |
| QueueProtocol.StepKeeps | services/qa-core/internal/queue/queue.go:207-296 | Every half-step of every submitter and of the worker keeps the invariant of the protocol |
| QueueProtocol.RunKeeps | services/qa-core/internal/queue/queue.go:207-296 | So does every run, from any state that satisfies it |
| QueueTheorems.JobTable | services/qa-core/internal/queue/queue.go:207-296 | In every reachable state the table is the disjoint union of queue, running job and retained completions, each job's state matches its place, it has a result exactly when done, and the queue holds once each the channel's jobs, the received one and the submissions in flight |
| QueueTheorems.StrictFifo | services/qa-core/internal/queue/queue.go:220-254 | Jobs start in the order of the channel sends, the starts are a prefix of the sends, and at most one job runs |
| QueueTheorems.RealTimeFifo | services/qa-core/internal/queue/queue.go:207-254 | If a's Submit had sent before b's began, b never starts before a, and a stays ahead of b in the queue while both wait |
| QueueTheorems.RejectedNeverRuns | services/qa-core/internal/queue/queue.go:221-230 | A rolled-back submission has no entry, is never sent and never starts, however the run continues |
| QueueTheorems.Retention | services/qa-core/internal/queue/queue.go:281-296 | The finished list is always exactly the last `retain` completions; no sent job that has not completed is ever evicted |
| QueueTheorems.MemoryBound | services/qa-core/internal/queue/queue.go:207-296 | The table never holds more than buffer + 1 + retain + calls in flight |
| JobStories.EntriesTold | services/qa-core/internal/queue/queue.go:207-286 | In every state of every run each entry has the kind and request of its submission and the plan and partial of its last report; a finished job holds exactly the value, or exactly the message, its runner ended with, and any other job neither |
| JobStories.SnapshotTold | services/qa-core/internal/queue/queue.go:316-330 | In every reachable state the snapshot names the job that started last while it runs, counts the waiting ones and gives the mean of the samples |
| JobStories.ViewTold | services/qa-core/internal/queue/queue.go:343-368 | In every reachable state a job's view shows its entry's state, plan and error; exactly a waiting job has a place, and stands there in the queue |
| QueuePositions.PositionNeverGrows | services/qa-core/internal/queue/queue.go:343-368 | In every run a waiting job's position never increases |
| QueuePositions.BannerPosition | services/qa-core/web/view.go:57-62 | The next submission is appended at the snapshot's queue length plus one |
| QueuePositions.LineServed | services/qa-core/internal/queue/queue.go:236-254 | On every continuation a sent job starts after exactly the jobs before it in the channel line |
| QueuePositions.CanServe | services/qa-core/internal/queue/queue.go:236-286 | A worker that has not stopped can serve the whole line |
| QueuePositions.HonestExactly | services/qa-core/internal/queue/queue.go:343-368 | For every waiting job, position p means p-1 starts first on every continuation that starts it if and only if the job is sent with the same place in the list and in the line, or nothing can start it any more |
| QueuePositions.AppendedNotHonest | services/qa-core/internal/queue/queue.go:216-222 | Before its send a position promises nothing: on one continuation a later submission overtakes it, on another none does |
| QueuePositions.SequentialHonest | services/qa-core/internal/queue/queue.go:207-234 | When submissions have not overlapped, every sent job's position is honest |
| QueuePositions.SequentialPositions | services/qa-core/internal/queue/queue.go:207-234 | And while they go on not overlapping, so is every waiting job's, one in flight included |
| QueuePositions.OverlapMisleads | services/qa-core/internal/queue/queue.go:216-230 | However the queue is configured, two overlapping submissions can stand in the list in one order and start in the other |
| Estimates.SamplesFrom | services/qa-core/internal/queue/queue.go:264-280 | Along every run the samples are those of the successful durations, in order of completion |
| Estimates.EstimateOfRun | services/qa-core/internal/queue/queue.go:355-365 | In every reachable state a waiting job's estimate is the windowed average times its position, plus one place if a job is running, and lies within any bounds of those durations times that count |
| Estimates.DurationsConcat | services/qa-core/internal/queue/queue.go:264-280 | The successful durations of a longer run are those of its parts, in order |
| Estimates.DurationsOne | services/qa-core/internal/queue/queue.go:264-280 | A step contributes its duration exactly when it ends a job with success |
| LiveStatus.LiveStepKeeps | services/qa-core/web/handlers.go:283-333 | Every step of the queue, the publishers and the handlers keeps: whoever has nothing on its way has read the present state |
| LiveStatus.NoLostWakeup | services/qa-core/web/handlers.go:293-316 | In every run with any publishers and handlers, a listener with no tick pending, none owed and none still to reach it, has read the present queue state, up to submissions in flight or rejected; other publishers may be at work |
| LiveStatus.SnapshotFreshExactly | services/qa-core/web/handlers.go:319-333 | The global status it shows is the true one if and only if its snapshot's queue held as many submissions that are in flight or rejected as the queue does now |
| LiveStatus.JobViewFreshExactly | services/qa-core/web/handlers.go:319-333 | The view of any job is the true one if and only if the job is in both states or in neither and, while it waits, as many such submissions stood ahead of it as do now |
| LiveStatus.QuietSnapshot | services/qa-core/web/handlers.go:319-333 | With no publisher at work and no Submit in flight: if and only if that snapshot caught no submission that was then rejected |
| LiveStatus.QuietJobView | services/qa-core/web/handlers.go:319-333 | Likewise for a job that was read: if and only if it was not rejected and no rejected submission stood ahead of it |
| LiveRuns.Delivery | services/qa-core/internal/sse/sse.go:40-49 | From every reachable state the publishers' steps and the handler's own, and no others, lead to one with nothing on its way to the handler, which has read the queue as it stands up to submissions in flight or rejected |
| LiveRuns.AppendNotShown | services/qa-core/internal/queue/queue.go:216-221 | However the queue is configured, a run with nothing pending, owed or rejected whose browser shows one waiting job too few: the append does not publish |
| LiveRuns.PhantomStaysShown | services/qa-core/internal/queue/queue.go:224-230 | However the queue is configured, a run that ends quiet with a browser showing one waiting job too many: the roll-back does not publish |
| LiveStatus.ChannelSafety | services/qa-core/internal/sse/sse.go:20-49 | In every run a tick goes to an open subscribed channel, and no channel is closed twice |
| Sse.Broadcaster.Subscribe | services/qa-core/internal/sse/sse.go:20-26 | Adds one fresh, open, empty channel |
| Sse.Broadcaster.Cancel | services/qa-core/internal/sse/sse.go:26-34 | Unsubscribes and closes the channel the first time, does nothing afterwards |
| Sse.Broadcaster.Publish | services/qa-core/internal/sse/sse.go:40-49 | Every subscriber has a tick pending, no closed channel is sent to, and no other channel changes |
| Sse.PublishIsARun | services/qa-core/internal/sse/sse.go:40-49 | The protocol can tick every subscriber once, and nobody else, in one undisturbed run |
| Sse.PublishSteps | services/qa-core/internal/sse/sse.go:40-49 | Publish on the channels that represent a protocol state leaves them representing the state that run ends in |
| Sse.SubscribeStep | services/qa-core/internal/sse/sse.go:20-26 | Subscribe on the representing channels is the protocol's step |
| Sse.CancelStep | services/qa-core/internal/sse/sse.go:26-34 | So is cancelling |
| Sse.TakeStep | services/qa-core/web/handlers.go:303-311 | So is the handler's receive, which finds the channel open |
| Uploads.DiskStepKeeps | services/qa-core/web/mom.go:32-63 | Every step of handlers, queue and runner keeps each file with exactly one answerable owner |
| Uploads.NoOrphans | services/qa-core/web/mom.go:40-59 | In every reachable state the files on disk are exactly those of handlers not yet done with them and those named by the requests of minutes jobs that wait or run ahead of their removal; no two jobs name one file |
| Uploads.DiskDrains | services/qa-core/internal/momorch/momorch.go:44-45 | With the handlers done and the queue drained nothing is left on disk |
| View.HumanDur | services/qa-core/web/view.go:67-73 | The text of any 64-bit duration, a negative one included |
| View.MakeStatusView | services/qa-core/web/view.go:39-64 | The banner's fields and text, branch by branch, the announced wait wrapping as a 64-bit duration |
| View.WaitShown | services/qa-core/web/view.go:50-73 | A wait that fits a duration is the average times everyone ahead, shown to the nearest second under a minute and to the nearest minute from there |
| View.BannerExactly | services/qa-core/web/view.go:39-64 | The banner's sentence in each of its three cases; it names a wait exactly when there is a positive average |
| View.TruncatedExactly | services/qa-core/web/view.go:44 | Whole seconds are cut towards zero, on either side of it |
| View.BannerKept | services/qa-core/web/view.go:39-64 | In every reachable state the place and the wait in the banner are those the next submission is then shown, plus one average while a job is running |
| View.MakeJobView | services/qa-core/web/view.go:95-121 | Every field of a job's own view |
| View.ShowPlan | services/qa-core/web/view.go:103-118 | The steps, the share of done ones and the step label |
| View.PlanShownExactly | services/qa-core/web/view.go:103-118 | Every step is shown, the percentage is the share of done steps cut to a whole, and the label is the title of the last running step |
| View.LabelExactly | services/qa-core/web/view.go:115-117 | With no step running the label shown is that of step done - 1, which is the last done step if and only if all steps up to it are done; with distinct titles the label names the last done step in no other case |
| View.LabelMisleads | services/qa-core/web/view.go:115-117 | After a failed batch the label can name the failed step |
| View.RunShown | services/qa-core/web/view.go:103-118 | After a successful generation run the bar is full, and the label names the coverage step that finished last, if and only if every batch and the extras succeeded |
| View.PercentFull | services/qa-core/web/view.go:103-114 | The percentage is within 0..100, and 100 exactly when every step is done |
| Text.Itoa | services/qa-core/web/view.go:305-326 | The 20-byte buffer prints the numeral of every 64-bit int except the most negative, which prints as "-" |
| Text.TrimmedMatch | services/qa-core/internal/orchestrator/coverage.go:124-131 | A string matches its own trimmed form, case aside, exactly when there is nothing to trim |
| Text.FieldsOfJoin | services/qa-core/internal/momorch/momorch.go:125-144 | Splitting into words undoes joining with single spaces |
| Text.DecimalInjective | services/qa-core/internal/orchestrator/orchestrator.go:183-190 | Different numbers have different numerals |
| Text.DecimalShape | services/qa-core/internal/orchestrator/coverage.go:178-197 | A numeral is digits, led by a zero only if it is 0 |
| Text.NumeralExactly | services/qa-core/web/view.go:305-326 | A numeral denotes its number: its digits read back, after a minus sign exactly when it is negative |
| Text.ValueSteps | services/qa-core/web/view.go:305-326 | Reading a numeral: each further digit counts once, and the digits before it ten times |
| Text.SpaceExamples | services/qa-core/internal/orchestrator/coverage.go:124-131 | Blanks, tabs and line ends are white space, and no printing ASCII character is |
| Text.TrimExactly | services/qa-core/internal/orchestrator/coverage.go:124-131 | Trimming keeps the stretch between the white space at both ends, and drops nothing else |
| Text.FoldExactly | services/qa-core/internal/orchestrator/coverage.go:124-131 | Two strings match up to case exactly when at each place they have the same letter, or one the capital of the other |
| Text.SpellsExactly | services/qa-core/internal/orchestrator/coverage.go:133-157 | A text spells a word exactly when the stretch between its outer white space has the word's letters, in either case |
| Text.Spelled | services/qa-core/internal/orchestrator/coverage.go:133-157 | Capitals and outer white space never keep a text from spelling a word |
| Text.FieldsExactly | services/qa-core/internal/momorch/momorch.go:125 | The words of a text are its maximal stretches without white space, in order, all of them |
| Text.WordsUnique | services/qa-core/internal/momorch/momorch.go:125 | A text has only one list of words |
| Text.JoinConcat | services/qa-core/internal/momorch/momorch.go:131-142 | A longer list is joined by joining its parts around one separator |
| Text.JoinOne | services/qa-core/internal/momorch/momorch.go:131-142 | One string is joined to itself, and none to nothing |
| Coverage.CheckCovers | services/qa-core/internal/orchestrator/coverage.go:124-131 | Finds whether some entry, trimmed and case-folded, is the criterion's ID |
| Coverage.ComputeCoverage | services/qa-core/internal/orchestrator/coverage.go:13-43 | The loops compute the matrix row by row and the three counts, which `CaseClasses.CountsExactly` and `CaseClasses.RowExactly` state in terms of the case types |
| Coverage.ComputeTraceability | services/qa-core/internal/orchestrator/coverage.go:47-105 | The loops compute the itemised deductions and the clamped score |
| Coverage.TallyTotal | services/qa-core/internal/orchestrator/coverage.go:13-24 | The three counts add up to the size of the suite |
| Coverage.TallyZero | services/qa-core/internal/orchestrator/coverage.go:13-24 | A count is zero exactly when no case has the type |
| Coverage.RowEmpty | services/qa-core/internal/orchestrator/coverage.go:26-41 | A row is empty exactly when no case covers its criterion |
| Coverage.RowMembers | services/qa-core/internal/orchestrator/coverage.go:26-41 | A row lists exactly the IDs of the covering cases |
| CaseClasses.ClassExactly | services/qa-core/internal/orchestrator/coverage.go:133-142 | A case is negative when its type spells "negative", an edge case when it spells one of the four edge words, and positive otherwise |
| CaseClasses.SpellingExamples | services/qa-core/internal/orchestrator/coverage.go:133-142 | "NEGATIVE" is negative and a padded "Edge" an edge case |
| CaseClasses.CountsExactly | services/qa-core/internal/orchestrator/coverage.go:14-24 | The summary counts exactly the positive, the negative and the edge cases |
| CaseClasses.RowExactly | services/qa-core/internal/orchestrator/coverage.go:26-41 | A row carries its criterion's description and the covering cases, and names exactly the classes among them, in alphabetical order |
| CaseClasses.RowConcat | services/qa-core/internal/orchestrator/coverage.go:30-35 | The IDs of a row stand in suite order: for a suite in two parts, first the one's and then the other's |
| CaseClasses.RowOne | services/qa-core/internal/orchestrator/coverage.go:30-35 | A case is listed, once, exactly when it covers the criterion |
| CaseClasses.CoversExactly | services/qa-core/internal/orchestrator/coverage.go:124-131 | A case covers a criterion exactly when one of its entries, trimmed, has the letters of the ID, in either case |
| CaseClasses.GapsExactly | services/qa-core/internal/orchestrator/coverage.go:55-68 | The gaps are exactly the criteria no case covers |
| CaseClasses.ChargeExactly | services/qa-core/internal/orchestrator/coverage.go:85-95 | An ambiguity is charged 15, 8, 4 or 1 points by the severity it spells, and one of no known severity nothing |
| CaseClasses.AmbiguitiesCost | services/qa-core/internal/orchestrator/coverage.go:85-95 | A list of ambiguities costs 15 points for each critical, 8 for each high, 4 for each medium and 1 for each low one |
| CaseClasses.ChargesConcat | services/qa-core/internal/orchestrator/coverage.go:85-95 | The items of a longer list are those of its parts, in order |
| CaseClasses.ScoreExactly | services/qa-core/internal/orchestrator/coverage.go:47-105 | The score of a suite is 100 less 15 for each uncovered criterion, 15 without a negative and 10 without an edge case, 10 more without both, and the cost of the ambiguities, floored at 0 |
| CaseClasses.ItemsExactly | services/qa-core/internal/orchestrator/coverage.go:69-95 | The listed items, in order: the gaps with their number, the missing classes, the ambiguities |
| CaseClasses.RatingExactly | services/qa-core/internal/orchestrator/coverage.go:109-122 | The bands of the rating |
| TraceabilityLaws.MoreCasesNeverLower | services/qa-core/internal/orchestrator/coverage.go:47-105 | A suite that contains at least the same cases never scores lower |
| TraceabilityLaws.MoreAmbiguitiesNeverRaise | services/qa-core/internal/orchestrator/coverage.go:84-105 | One more ambiguity, wherever inserted, never raises the score and costs at most 15 |
| TraceabilityLaws.ScoreIsItemised | services/qa-core/internal/orchestrator/coverage.go:47-105 | The score is always 100 plus the listed points, floored at 0; every item is negative, and 100 means no items |
| Scoring.Normalize | services/qa-ai/internal/scoring/scoring.go:23-41 | The loop recomputes the score from the deductions, signs corrected, and rates it |
| Scoring.ResultRef.Clamp | services/qa-ai/internal/scoring/scoring.go:12-15 | Replaces both scores by their normal forms and nothing else |
| Scoring.ResultRef.ClampHealth | services/qa-ai/internal/scoring/scoring.go:19-21 | Replaces the health score only |
| Scoring.NormalizedRange | services/qa-ai/internal/scoring/scoring.go:23-41 | The upper clamp is never needed, and the lower one acts exactly when the penalties exceed 100 |
| Scoring.PenaltiesOne | services/qa-ai/internal/scoring/scoring.go:25-31 | An item counts against the score by its size, whichever its sign |
| Scoring.PenaltiesConcat | services/qa-ai/internal/scoring/scoring.go:24-31 | The penalty of a longer list is the sum of those of its parts |
| Scoring.HealthExactly | services/qa-ai/internal/scoring/scoring.go:45-58 | The bands of the health rating |
| Scoring.TraceabilityIsNormal | services/qa-ai/internal/scoring/scoring.go:23-75 | Normalising any score computed by qa-core changes nothing: the two services agree |
| Scoring.NormalizedTwice | services/qa-ai/internal/scoring/scoring.go:23-41 | Normalising is idempotent, for every score and every rating scale |
| Export.Derive | services/qa-core/internal/export/common.go:53-73 | The maps built row by row hold, for each ID, what `Export.GatherExactly` says of the two fields |
| Export.ListedExactly | services/qa-core/internal/orchestrator/coverage.go:26-41 | With unique IDs a row lists a case exactly when the case covers the criterion |
| Export.DeriveInverts | services/qa-core/internal/export/common.go:62-71 | Reading the matrix back gives each case exactly the non-empty descriptions of the criteria it covers, once each, in criterion order |
| Export.GatherExactly | services/qa-core/internal/export/common.go:62-71 | For each ID and each field: the non-empty values of the rows that list it, once each, in the order of their first mention |
| Export.DeriveTypes | services/qa-core/internal/export/common.go:67-69 | The second map holds the coverage types of the rows that list the case, likewise |
| Export.RtmRows | services/qa-core/internal/export/rtm.go:20-49 | One row per criterion with its covering IDs, its raw case types sorted without repeats, and GAP exactly when no case covers it |
| Export.RtmRowExactly | services/qa-core/internal/export/rtm.go:20-49 | Field by field what a row says: the criterion's four fields, the covering IDs and their number, the sorted distinct trimmed types of the covering cases, and Covered exactly when some case covers it |
| Sorting.JoinSet | services/qa-core/internal/export/rtm.go:95-105 | Whatever order the map gives its keys in, the result is the one ascending list of them, joined |
| Sorting.AscendingUnique | services/qa-core/internal/export/rtm.go:95-105 | There is only one ascending list of given strings |
| Sorting.LessExactly | services/qa-core/internal/export/rtm.go:95-105 | One string stands before another exactly when it is a proper prefix or has the smaller character where they first differ |
| Export.GapCount | services/qa-core/internal/export/rtm.go:53-68 | Counts the criteria no case covers |
| Export.GapAccountsAgree | services/qa-core/internal/export/rtm.go:20-68 | Empty matrix rows, GAP rows and the gap count are one number, and each RTM list is the matrix row's list |
| Export.GapsAreCharged | services/qa-core/internal/orchestrator/coverage.go:47-71 | The first deduction is 15 points for each of those gaps, and absent when there is none |
| ProgressReport.Progress.Plan | services/qa-core/internal/queue/queue.go:95-103 | Replaces the plan by pending steps, announces it, and changes nothing else of the queue |
| ProgressReport.Progress.Append | services/qa-core/internal/queue/queue.go:107-114 | Adds one pending step and returns its index |
| ProgressReport.Progress.Set | services/qa-core/internal/queue/queue.go:116-126 | Changes one step, ignores an index outside the plan, and keeps the detail when given none |
| ProgressReport.Progress.Partial | services/qa-core/internal/queue/queue.go:136-142 | Publishes work in progress and keeps the plan |
| ProgressReport.NewPlanExactly | services/qa-core/internal/queue/queue.go:95-103 | A new plan has one pending step per label |
| ProgressReport.SetStepExactly | services/qa-core/internal/queue/queue.go:116-126 | Setting a step changes its state, and its detail unless the new one is empty, and no other step |
| Orchestrator.Renumber | services/qa-core/internal/orchestrator/orchestrator.go:183-190 | The cases in order, numbered TC-1 to TC-N, otherwise unchanged |
| Orchestrator.RunBatches | services/qa-core/internal/orchestrator/orchestrator.go:108-137 | Pins, collects, renumbers and publishes batch by batch; a failed batch is skipped, its step marked failed with the message |
| Orchestrator.Complete | services/qa-core/internal/orchestrator/orchestrator.go:139-172 | The extras, the coverage fields and the final snapshot |
| Orchestrator.Run | services/qa-core/internal/orchestrator/orchestrator.go:42-172 | Returns, requests, publishes and hands to the snapshotter what `Results` states of `Produced`, `Requests`, `Snapshots` and `FinalPlan` field by field; every published plan is settled but for its last step; a success ends with min(criteria, 15) + 3 steps; of a valid manager only this job's report changes |
| Assembly.RenumberedUnique | services/qa-core/internal/orchestrator/orchestrator.go:183-190 | However the model numbered them, the published cases have distinct IDs |
| Assembly.RequestOfBatch | services/qa-core/internal/orchestrator/orchestrator.go:108-122 | Batch b is asked to number from one more than the cases gathered so far |
| Assembly.BatchPlace | services/qa-core/internal/orchestrator/orchestrator.go:124-137 | Case c of batch b ends at place StartIndex + c under that number; if it named no criterion it covers its batch's, and all else of it is unchanged |
| Assembly.SuiteOrigin | services/qa-core/internal/orchestrator/orchestrator.go:108-137 | Every case of the suite comes from a case of a successful batch |
| Assembly.SnapshotsGrow | services/qa-core/internal/orchestrator/orchestrator.go:133-137 | Each published suite is a prefix of every later one, IDs included |
| Assembly.FinalSuite | services/qa-core/internal/orchestrator/orchestrator.go:108-172 | A success returns all successful batches in criterion order, renumbered, with the matrix, counts and score of exactly that suite |
| Assembly.ResultConsistent | services/qa-core/internal/orchestrator/orchestrator.go:42-172 | In every successful result the matrix inverts, the counts add up, all gap accounts agree, and the score is a fixpoint of the other service's scorer |
| Results.ResultFields | services/qa-core/internal/orchestrator/orchestrator.go:90-172 | Field by field, a successful result holds the analysis's features, ambiguities, health and missing areas, the last followed by the cap note with the number of criteria past 15 exactly when there are more; the curated criteria or else the analysis's; the extras exactly when their stage succeeded; and the matrix, counts and score of its own suite, charged for the analysis's ambiguities |
| Results.ResultScore | services/qa-core/internal/orchestrator/orchestrator.go:157-161 | The counts and the number of the score, from the case types, the uncovered criteria and the analysis's ambiguities |
| Results.SnapshotFields | services/qa-core/internal/orchestrator/orchestrator.go:108-172 | One snapshot per successful batch, in order, holding the analysis's fields and the cases gathered so far and nothing else; then, exactly on success, the result |
| Results.FailsExactly | services/qa-core/internal/orchestrator/orchestrator.go:75-141 | A run fails exactly when its analysis does, with that message, or when none of the first 15 criteria got a case |
| Results.FoldedExactly | services/qa-core/internal/orchestrator/orchestrator.go:64-69 | Clarifications of white space only leave the requirement alone; any others follow it, both trimmed |
| Results.RequestsSent | services/qa-core/internal/orchestrator/orchestrator.go:71-147 | The analysis is asked first, then one batch per criterion up to 15, then the extras exactly if there are cases, each about the folded requirement |
| Results.PlanTells | services/qa-core/internal/orchestrator/orchestrator.go:70-164 | Title, state and detail of every step of the final plan: a step is done exactly when its call succeeded, and otherwise failed with its message |
| Assembly.PinExactly | services/qa-core/internal/orchestrator/orchestrator.go:127-132 | A pinned case covers its criterion exactly when the ID has no white space at its ends |
| Assembly.PinnedRowCovered | services/qa-core/internal/orchestrator/orchestrator.go:127-132 | In every successful run such a criterion's row lists the pinned case under its new ID |
| Assembly.UntrimmedIdIsAGap | services/qa-core/internal/orchestrator/orchestrator.go:127-132 | With one such case and one criterion, curated or out of the analysis, the result has a gap exactly when the ID is not trimmed |
| Assembly.AnalysisCanLeaveAGap | services/qa-core/internal/orchestrator/orchestrator.go:82-87 | An analysis that answers with the ID "AC-1 " and a batch of one such case end in a gap |
| Forms.ParseCuratedACs | services/qa-core/web/handlers.go:448-481 | The kept rows, numbered by their own counter, with the other fields taken at the original index |
| Forms.KeptExactly | services/qa-core/web/handlers.go:466-471 | The kept rows are exactly those with a description, each once, in form order |
| Forms.CuratedIds | services/qa-core/web/handlers.go:472-479 | The IDs are AC-1 to AC-N, distinct and trimmed |
| Forms.CuratedFields | services/qa-core/web/handlers.go:460-480 | Criterion k has the trimmed description and the other fields of the k-th kept row, a field whose array is shorter being blank |
| Forms.CuratedTraceable | services/qa-core/web/handlers.go:444-481 | In a run from the form, criterion b has all the fields of the b-th kept row, matrix row b is about it, and is not empty when its batch gave a case that named no criterion |
| Chunks.ChunkText | services/qa-core/internal/momorch/momorch.go:124-148 | The loop gives exactly the windows, over the maximal space-free stretches of the text, of the closed form: ceil((n - size) / step) + 1 of them for a text longer than one window |
| Chunks.CountIs | services/qa-core/internal/momorch/momorch.go:136-146 | The closed-form count is the number of windows after which the loop stops, and no other number is |
| Chunks.Placed | services/qa-core/internal/momorch/momorch.go:136-146 | Every window starts inside the text; the last one reaches its end unless the overlap is negative, so the loop leaves through its break |
| Chunks.WindowSizes | services/qa-core/internal/momorch/momorch.go:129-147 | Every chunk has 1 to size words, all but the last exactly size, and each later one at least one new word |
| Chunks.Reconstructs | services/qa-core/internal/momorch/momorch.go:129-147 | The first chunk and each later one without its overlap are exactly the word list |
| Chunks.ChunkReads | services/qa-core/internal/momorch/momorch.go:124-147 | Chunk k starts k steps into the text, holds the next words of it up to size, with single spaces between, and splits back into just these |
| Chunks.ChunksReadBack | services/qa-core/internal/momorch/momorch.go:124-148 | The chunk texts, split again and less their overlaps, are the words of the text: its maximal stretches without white space, in order, all of them |
| Chunks.InsideReads | services/qa-core/internal/momorch/momorch.go:121-123 | A run that lies inside a window can be read off it word for word |
| Chunks.RunsExactly | services/qa-core/internal/momorch/momorch.go:121-147 | Every run of m words lies whole in some chunk if and only if m is at most one more than the effective overlap, or the text fits one window |
| Chunks.TwiceExactly | services/qa-core/internal/momorch/momorch.go:129-147 | No word is in three chunks if and only if two steps pass a window or there are at most two chunks |
| Chunks.ConfiguredWindows | services/qa-core/internal/momorch/momorch.go:129-147 | With 800 and 100, runs of up to 101 words stay whole and no word is in more than two chunks |
| MomRun.MapChunks | services/qa-core/internal/momorch/momorch.go:81-101 | One extraction per chunk in order up to the first failure; the partials file holds the notes in that order |
| MomRun.Run | services/qa-core/internal/momorch/momorch.go:44-119 | Returns, requests and shows what `FailsExactly`, `RequestsSent`, `PlanTells` and `NothingLost` say; upload and working directory are gone on every exit; every published plan is settled but for its last step, which is left running by two failures only; of a valid manager only this job's report changes |
| MomRun.TranscriptWriteLeavesRunning | services/qa-core/internal/momorch/momorch.go:67-69 | An unwritable transcript is one of the two failures that leave a step running |
| MomRun.PartialWriteLeavesRunning | services/qa-core/internal/momorch/momorch.go:95-98 | An unwritable partial is the other |
| MomRun.NothingLost | services/qa-core/internal/momorch/momorch.go:73-118 | A success has asked for every chunk in order, the chunks less their overlaps are the words of the transcript, and the consolidation got every chunk's notes in that order |
| MomRun.LanguageExactly | services/qa-core/internal/momorch/momorch.go:193-205 | An override is taken trimmed unless blank or "auto"; then the codes id and en are recognised in any case and padding, and anything else leaves the language open |
| MomRun.FailsExactly | services/qa-core/internal/momorch/momorch.go:44-119 | A run fails with the error of the first call that fails, prefixed as its stage does, and only so |
| MomRun.RequestsSent | services/qa-core/internal/momorch/momorch.go:64-111 | In every run: the transcription, then one extraction per chunk up to the first failure, then the consolidation of all the notes exactly if there was none |
| MomRun.PlanTells | services/qa-core/internal/momorch/momorch.go:51-116 | Title, state and detail of every step of the final plan: done exactly when its calls succeeded, failed with the first message otherwise, and left running only where a write failed |
| Worker.RunRunner | services/qa-core/internal/queue/queue.go:256-267 | The runner chosen by kind gives the verdict, leaves its own plan, and changes of the manager the job's report only |
| Worker.VerdictExactly | services/qa-core/internal/queue/queue.go:256-263 | A validation returns the validator's outcome, a minutes job the minutes alone or the run's error, and every other job, or one whose runner is not configured, what the generating run returns |
| Worker.RunJob | services/qa-core/internal/queue/queue.go:247-286 | A whole job with its actual runner: its entry ends holding the verdict's value or message and the last report, every other kept entry is as it was, the guarded state is that of starting, reporting and ending, the invariants hold, and the minutes runner's upload is gone |

## Left out

* HTTP, JSON, CSV, the language model, whisper, the clock and the templates: each call out is an answer given as a parameter, a timeout being a failure.
* Data races: each critical section is one atomic step, so reads of a job outside the lock are not modelled.
* The two reads behind one event frame (`Snapshot`, then `JobView`) are separate steps; freshness is proved for each, not for the pair.
* The validating runner's own work: it is a verdict given. The timing log, and what the snapshotter does with a snapshot.
* The files of a working directory beyond their being removed: chunks and partials are read back as they were written, or the read fails.
* Job IDs are numbers here; the source writes 72 random bits in hexadecimal, and freshness of a new ID is assumed.
* Submission, start and finish times of a job.
* Durations, scores and sums are unbounded; 64-bit overflow is modelled in `itoa` and in the banner's wait only.
* Removal of the temporary file is taken to succeed, and the minutes runner to be configured.
* Criterion lookups by exact ID, the severity and priority columns and the other export layouts: the code does not make them agree with the coverage relation.
* The older gap penalties of PRD.md: the code follows services/qa-ai/internal/prompt/prompt.go:33-39, and so does the model.
* The options store, the model picker, the readiness loop and the retries: they would only add easy members.
- Text.Lower: folds the ASCII letters only, where the source folds Unicode; white space is that of Unicode.
- QueueManager.Manager.Submit: runs its two critical sections without interference; `QueueProtocol` interleaves them.
- QueueManager.Manager.RunOne: likewise for the worker's two critical sections, with the runner's verdict given; `Worker.RunJob` runs the runner.
- Worker.RunJob: likewise, with its actual runner but no submission between its critical sections.
- View.HumanDur: rounds in exact arithmetic where the source rounds in floating point.
- View.MakeStatusView: asks for a queue shorter than the largest int, as every slice is, and rounds in exact arithmetic where the source uses floating point.
- Chunks.ChunkText: asks for exactly the arguments on which the source returns; on the others (text present, and a negative size, or size 0 with no negative overlap) it slices backwards or never ends.
