# Skirnir: verified models of the agent and the router

Skirnir routes inference requests to GPU nodes. On every node an agent (Go) supervises the model servers, watches the card and
reports to the router; the router (Python) translates between API formats, queues requests and distributes agent updates. This
project models the parts of both whose guarantees only show over whole runs or over every input, and proves them.

Code that works by changing state in place is modelled by classes and methods, each proved to do exactly what a function on
values says; the theorems are about those functions, over every run, every interleaving or every input. Times are integers
(milliseconds) or reals, floats are reals, JSON values are datatypes or texts. Processes, files, the card, the network and clocks
are parameters or events of which nothing is assumed but what is stated.

| files | modules | about |
|---|---|---|
| OllamaWatch, WatchRuns | the watcher of the upstream server and its standby | the report revision is faithful, consistent and delivered |
| HandOver, HandOverRuns, RamCheck, UpstreamHold, StartGrace | the GPU hand-over as a step protocol, its objects, and its timing | order of reports, mutual exclusion, routing, the RAM check, the start grace |
| Guard, GuardRuns, GuardSpacing, GuardTargets, GuardWarnings | the power guard of the card | timing of stage 2, which limit is set, when and how often, warnings once per episode |
| FileSwap, FileSwapProofs, OllamaUpdate | the exchange of Ollama's files and the update protocol | swap and rollback undo each other, exactly when, approval, all or nothing |
| AnthropicStream, AnthropicGrammar, AnthropicReplay, AnthropicUnary, AnthropicEnding | the event stream of the Anthropic Messages API | grammar, lossless replay, stream equals unary, stop reason and counters, hidden thinking |
| OpenAIStream, ServerEvents, Lines | the reader of provider streams, the child log | fragments assemble, chunk boundaries do not matter |
| History, HistoryIds, HistoryProofs, HistoryTools | conversation histories between the formats | round trip, roles, what is refused, calls and results, exactly which call a result names |
| Admission, AdmissionRuns | the queue in front of a full node | order, bound, bounded overtaking |
| Rollout, RolloutRuns, RolloutOrders | agent updates | canary first, orders spaced, one per round, what settles an order |
| Discovery | Home Assistant entities | the broker's retained configs follow what applies |
| RateWindow | the request limit per client | at most n in every closed 60 seconds |

## Where the code does less than its documentation says

Each of these is proved: the code is kept as it is, an input shows the difference, and the exact condition is a theorem.

- Two servers on one card: a Hold that returns while its child is still starting (between the held check at
  agent/supervisor.go:80 and `Running` at agent/supervisor.go:140) or still running lets the other one join it. The start of a
  child is therefore two steps here, not one; `ExclusionBreaksIff` says these are the only steps after which it can happen, and
  `StartWindowIsReachable` that the window is real.
- The start grace counts from the time stamp the order got in `Handle`, before it waits for the lock
  (agent/upstream_hold.go:235): `NeverDownBeforeIff` gives the exact reach of the grace, `QueuedReleaseCanReportDown` an order
  that waited, and `UnrenewedGraceIff` the case without a standby, in which the report is not renewed.
- `StartHeld` on a watcher that has reported before can change the report without a new revision: `StartHeldFaithfulIff`.
- "At most every reapply_s" holds for attempts in a row. Any two attempts for one target are at least reapplyS apart exactly if
  reapplyS exceeds neither the length of stage 2 nor the longer of highS and the minute of recovery (`SpacingIff`); for all other
  parameters `EarlySustained` and `EarlyStage2` build a run with two attempts that are closer.
- The high-load counter survives a low load of highGapS or more exactly if the engine was in recovery throughout (or has just
  entered stage 2, whose end resets it): `LongGapIsCountedIff`, with a run from the fresh engine in `RecoveryGapIsCounted`.
- A high load that is reported by the gap rule dereferences a power reading that may be missing, and the agent crashes
  (agent/guard.go:272): a run that ends so exists exactly if highS and highGapS are positive (`MissingPowerIff`).
- A rollback in which renames fail as well leaves the install folder incomplete: `InstallFolderRestoredIff` says exactly which
  renames have to pass, and `FailedRestoreLeavesInstallWithout` that an entry whose restoring rename fails is then only in the
  staging folder, which is deleted.
- Anything audible after the node's final chunk breaks the event grammar (`GrammarIff`); chunks not in thinking-text-tools order
  are rebuilt as other blocks than the unary answer has (`StreamEqualsUnaryIff`).
- An unfinished log line of more than 64 KiB is cut (`LogIsSplitIff`).
- An assistant's images, and turns with neither text nor images, do not survive the way to a provider and back
  (`RoundTripIff`, `AssistantImagesAreLost`).
- A tool result names its own call only under conditions. Without ids on the results: `OwnIdIff` gives the condition for every
  result and call; a turn's results are late by as many calls as were still waiting (`UnansweredCallsShiftIds`,
  `ShiftedIdIsOwnIff`); two calls share an id exactly as `SameIdIff` says (`PartlyAnsweredTurnsCollide` is an input); a result no
  call waits for names the first call of the history (`SurplusResultNamesFirst`). With the client's ids kept on the results, a
  result names a call only if the client's id happens to be one of the numbers given out (`KeptIdNamesIff`).
- The canary's clean time is counted from the whole second of its login, so it can be up to a second short
  (`CanaryCleanIff`, `CleanTimeCanBeShort`); and a round reads the manifest twice: an order's version has been run by the canary
  exactly if it is the version of the first read (`AutomaticOrdersFollowCanary`), and any two different versions let one through
  that no node has run (`SecondReadEscapesCanary`).

## Model

| member | source | states |
|---|---|---|
| OllamaWatch.PsKeyIsUpToExpiry | agent/ollamawatch.go:337-351 | two /api/ps answers have one key exactly if they differ in nothing but expires_at |
| OllamaWatch.BuildPsKey | agent/ollamawatch.go:337-351 | the loop builds that key |
| OllamaWatch.BuildRawKey | agent/ollamawatch.go:353-360 | the loop builds the key of a list taken as it is |
| OllamaWatch.OllamaWatcher.constructor | agent/ollamawatch.go:102-119 | a new watcher reports nothing and gives an OpenAI upstream its start grace |
| OllamaWatch.OllamaWatcher.SetUpstreamState | agent/ollamawatch.go:201-213 | a new state is reported as up with nothing loaded, once |
| OllamaWatch.OllamaWatcher.SetHeld | agent/ollamawatch.go:124-143 | hold keeps the upstream's models aside; release starts the grace and ends the standby's part |
| OllamaWatch.OllamaWatcher.StartHeld | agent/ollamawatch.go:147-158 | an agent that starts held reports the remembered models |
| OllamaWatch.OllamaWatcher.UpstreamTags | agent/ollamawatch.go:160-170 | the upstream's own models, also while the standby stands in |
| OllamaWatch.OllamaWatcher.SetBlocked | agent/ollamawatch.go:174-188 | a changed block is news, an unchanged one is not |
| OllamaWatch.OllamaWatcher.SetFallback | agent/ollamawatch.go:190-199 | the standby is polled from now on, with its own grace |
| OllamaWatch.OllamaWatcher.Snapshot | agent/ollamawatch.go:227-235 | the report, and whether there is one |
| OllamaWatch.OllamaWatcher.PollBegin | agent/ollamawatch.go:363-377 | whom a poll asks, and for what |
| OllamaWatch.OllamaWatcher.PollCommit | agent/ollamawatch.go:378-417 | what an answer or failure does when it arrives, whatever happened since the poll began |
| OllamaWatch.OllamaWatcher.StandbyCommit | agent/ollamawatch.go:427-468 | the same for the standby |
| WatchRuns.StepKeepsInv | agent/ollamawatch.go:124-212 | every setter and every late poll keeps report, flags and comparison keys together |
| WatchRuns.StepIsFaithful | agent/ollamawatch.go:363-468 | each step raises the revision by one or leaves what the router sees alone |
| WatchRuns.StartHeldFaithfulIff | agent/ollamawatch.go:147-158 | the exact state in which a held start changes the report without a new revision |
| WatchRuns.RunIsFaithful | agent/ollamawatch.go:363-468 | over any run the revision never falls and equal revisions mean equal reports |
| WatchRuns.RunReportConsistent | agent/ollamawatch.go:124-212 | "held" is reported exactly while held, implies up; serving implies held and polling the standby |
| WatchRuns.AnswerIsReported | agent/ollamawatch.go:398-417 | after an answer the report is that answer, up to expires_at |
| WatchRuns.AnswerIsNewsIff | agent/ollamawatch.go:398-417 | an answer raises the revision exactly if it differs by more than expires_at |
| WatchRuns.StandbyAnswerIsReported | agent/ollamawatch.go:447-467 | the standby's models are reported with the held upstream's behind them |
| WatchRuns.RepeatedAnswersAreSilent | agent/ollamawatch.go:398-417 | an answer of the upstream repeated any number of times never raises the revision |
| WatchRuns.StandbyAnswerIsNewsIff | agent/ollamawatch.go:447-467 | a serving standby raises the revision exactly if its answer differs by more than expires_at from what is reported |
| WatchRuns.RepeatedStandbyAnswersAreSilent | agent/ollamawatch.go:427-468 | repeated answers of the standby, and late ones of anybody else, never raise the revision |
| WatchRuns.FreshIs | agent/ollamawatch.go:102-119 | a new watcher has nothing to report; an OpenAI-compatible server gets three minutes to start |
| WatchRuns.HeldStartIsReported | agent/ollamawatch.go:147-158 | a held start is reported at once with the remembered models |
| WatchRuns.HoldIsReported | agent/ollamawatch.go:124-137 | a hold reports the upstream as up with nothing loaded and keeps its models, in the report and aside |
| WatchRuns.ReleaseIsReported | agent/ollamawatch.go:138-143 | a release reports it as starting with its own models for three minutes |
| WatchRuns.FailureInGrace | agent/ollamawatch.go:383-386 | a failure within the grace is reported as starting and counts for nothing |
| WatchRuns.DownWithThirdFailure | agent/ollamawatch.go:387-396 | the third failure in a row reports the server as down, once; before it nothing is reported |
| WatchRuns.StandbyLeavesWithThirdFailure | agent/ollamawatch.go:434-446 | the third failure of a serving standby takes its models out of the report, the node stays up |
| WatchRuns.StandbyMayStart | agent/ollamawatch.go:434-437 | within its first minute a failing standby changes nothing |
| WatchRuns.QuestionIs | agent/ollamawatch.go:363-377 | whom a poll asks, and exactly when it asks for the models |
| WatchRuns.NextTagsIff | agent/ollamawatch.go:375-377 | after an answer with models they are asked for again five seconds later |
| WatchRuns.RememberedTagsIff | agent/ollamawatch.go:160-170 | there are models to remember exactly while the upstream itself answers with some |
| WatchRuns.BlockIsNewsIff | agent/ollamawatch.go:174-188 | a block is news exactly if it differs, and changes nothing else |
| WatchRuns.OllamaLoop | agent/tunnel.go:354-381 | in every turn a frame is sent if and only if there is a report that is due (new, kicked, first or 30 s old), and the last frame is the watcher's report while the sent revision stands |
| WatchRuns.ShownIsCurrent | agent/tunnel.go:354-381 | while the sent revision is current, the router's last frame equals the state apart from its timestamp |
| HandOver.StepKeepsInv | agent/upstream_hold.go:238-308 | every step of order, supervisor, poller or request keeps flags, children, switch and report together |
| HandOver.UnfinishedAfter | agent/upstream_hold.go:328-346 | a handle counts once however often its end is called |
| HandOver.CallEffect | agent/ollamawatch.go:124-212 | what each call of the watcher means for the protocol |
| HandOverRuns.RunInv | agent/upstream_hold.go:238-308 | the invariant holds at every intermediate step of every interleaving |
| HandOverRuns.BothActiveIsMissed | agent/supervisor.go:292-317 | both servers are active at once only after a Hold that returned over an active process |
| HandOverRuns.MutualExclusion | agent/upstream_hold.go:238-308 | while every Hold stopped its child the two never run together, and a released standby means a held and stopped upstream |
| HandOverRuns.CleanRunExcludes | agent/upstream_hold.go:238-308 | the same for every continuation of a state that missed nothing |
| HandOverRuns.ExclusionBreaksIff | agent/supervisor.go:69-120 | a step opens a future with both running exactly if it is a Hold returning over a starting or running child |
| HandOverRuns.StartWindowIsReachable | agent/supervisor.go:80-140 | an order that arrives while the supervisor starts the upstream passes over it, and a continuation without another fault ends with both running |
| HandOverRuns.RoutingMatchesReport | agent/upstream_hold.go:280-353 | serving implies routed to the standby, routed implies released standby and held upstream; inflight counts the unfinished handles |
| HandOverRuns.ReportComesFirst | agent/upstream_hold.go:238-277 | "held" is reported before the mark is set and taken back before it is cleared |
| HandOverRuns.AgreementBetweenOrders | agent/upstream_hold.go:123-145 | between orders flag, mark and report agree; a block implies held and is what the router reads |
| HandOverRuns.StampIsOrder | agent/upstream_hold.go:231-262 | the stamp apply works with is that of the order it is working on |
| HandOverRuns.GracesCountFromOrders | agent/upstream_hold.go:262-290 | the standby gets a minute from the hold order, the upstream three from the release order and three more from the standby's stop |
| HandOverRuns.RevisionIsFaithful | agent/ollamawatch.go:363-468 | whatever the protocol does, equal revisions mean equal reports |
| UpstreamHolds.OthersRespect | agent/upstream_hold.go:238-308 | no other goroutine changes an order's flags, the marks or the switch position |
| UpstreamHolds.HoldOrderEnds | agent/upstream_hold.go:244-261 | a hold order ends held and consistent whatever the others do in its gaps; the standby is released and switched to exactly if there is one and the upstream was seen stopped; a repeated order changes nothing |
| UpstreamHolds.ReleaseOrderEnds | agent/upstream_hold.go:262-277 | a release ends released with the standby held and no request going to it, or with only the refusal recorded |
| UpstreamHolds.ReleaseNeedsRoom | agent/upstream_hold.go:121-137 | a held upstream is released exactly if nothing can be checked or enough RAM stays free after its need; a refusal records the readings |
| RamCheck.RefusedIff | agent/upstream_hold.go:121-137 | refused exactly if limit, need and reading are known and less than the part to be kept free would stay available |
| RamCheck.MoreRoomNeverRefuses | agent/upstream_hold.go:121-137 | more available RAM, a higher limit or a smaller need never turns an acceptance into a refusal |
| UpstreamHolds.Supervisor.SetPhase | agent/supervisor.go:123-197 | the loop moves a child to another phase |
| UpstreamHolds.Supervisor.MayStart | agent/supervisor.go:349-366 | the loop passes only a child that is not held |
| UpstreamHolds.Supervisor.SetHeldMark | agent/supervisor.go:292-334 | Hold, Park and Release set the mark and nothing else |
| UpstreamHolds.UpstreamSwitch.Acquire | agent/upstream_hold.go:328-346 | a request goes to the standby and is counted exactly while the switch is on |
| UpstreamHolds.UpstreamSwitch.Finish | agent/upstream_hold.go:338-345 | the end of a request is counted once |
| UpstreamHolds.UpstreamSwitch.Set | agent/upstream_hold.go:348-352 | only the position changes |
| UpstreamHolds.UpstreamHold.StartHeld | agent/upstream_hold.go:101-117 | the objects reach the protocol's held start |
| UpstreamHolds.UpstreamHold.ApplyHold | agent/upstream_hold.go:244-261 | the method performs the protocol's hold order, section by section, for all behaviour in between |
| UpstreamHolds.UpstreamHold.StopFallback | agent/upstream_hold.go:294-308 | draining, switching, holding and the renewed report, in this order |
| UpstreamHolds.UpstreamHold.ApplyRelease | agent/upstream_hold.go:262-277 | the method performs the protocol's release order; it ends held exactly if it was and the RAM check, in terms of the RAM left free, says so |
| UpstreamHolds.UpstreamHold.SetBlocked | agent/upstream_hold.go:139-144 | flag and report change together |
| UpstreamHolds.UpstreamHold.Sample | agent/upstream_hold.go:162-170 | while held, a block is dropped exactly if nothing can be checked any more or enough RAM would stay free |
| StartGrace.ReleaseStartsGrace | agent/ollamawatch.go:124-143 | a release reports "starting" with a grace of three minutes from its stamp |
| StartGrace.DownAfterThreeLate | agent/ollamawatch.go:383-396 | polls failing during the grace change nothing; the third after it reports down |
| StartGrace.NeverDownBeforeIff | agent/ollamawatch.go:383-396 | no schedule of failing polls before a time reports down exactly if that time is at most two intervals after the grace |
| StartGrace.Drain | agent/upstream_hold.go:355-369 | ends at the first look without requests, or at the first look past two minutes |
| StartGrace.WaitStopped | agent/supervisor.go:305-317 | ends at the first look at a stopped child, or at the deadline |
| StartGrace.ReleaseNeverReportsDown | agent/upstream_hold.go:270-308 | from the order to the end of the grace renewed after drain and stop, no failing poll reports anything but "starting" |
| StartGrace.QueuedReleaseCanReportDown | agent/upstream_hold.go:231-241 | an order that waited a minute for the lock can report the node down |
| StartGrace.UnrenewedGraceIff | agent/upstream_hold.go:270-277 | without a standby three minutes from the start are covered exactly if the order waited at most two polls |
| Guard.TargetsInRangeIff | agent/guard.go:168-182 | both targets lie in range exactly if the minimum does not exceed the default |
| Guard.GuardEngine.StepTimer | agent/guard.go:236-286 | counter, gap rule and stages after one measurement, and which events are reported |
| Guard.GuardEngine.TryLimit | agent/guard.go:303-324 | one attempt to set a limit, with refusal and outside interference, and which events are reported |
| Guard.GuardEngine.StepLever | agent/guard.go:287-330 | whether, and to what, the limit is set |
| Guard.GuardEngine.Step | agent/guard.go:194-341 | a measurement with readable limits: timer, then lever |
| GuardRuns.EntryNeedsFullCounter | agent/guard.go:236-280 | stage 2 starts only after a counter of highS that met high load at every normal or high-load sample |
| GuardRuns.FullCounterForcesEntry | agent/guard.go:262-280 | samples that are all high are reported as high load from half of highS on and enter stage 2 at highS |
| GuardRuns.Stage2LastsExactly | agent/guard.go:248-252 | stage 2 ends exactly at the first sample recoveryS after its start |
| GuardRuns.PhasesAreApart | agent/guard.go:248-280 | between two phases of stage 2 lie at least highS and at least the minute of recovery |
| GuardRuns.FullLoadIff | agent/guard.go:227-234 | full load is a power of at least highPct percent of the active limit |
| GuardRuns.GapIsBridgedIff | agent/guard.go:235-245 | a low sample counts as high exactly while the counter runs and the load has been low for less than highGapS |
| GuardRuns.LongGapIsCountedIff | agent/guard.go:236-286 | a low load of highGapS or more leaves the counter running exactly if recovery lasted throughout, or stage 2 has begun |
| GuardRuns.RecoveryGapIsCounted | agent/guard.go:253-261 | for all parameters a run from the fresh engine counts such a gap towards the next stage 2 |
| GuardRuns.CallsStayInRange | agent/guard.go:168-182 | every value passed to setLimit lies between the lowest admissible limit and the default |
| GuardRuns.LastSetWasAccepted | agent/guard.go:303-324 | the remembered limit is one the card accepted before |
| GuardRuns.RaisesOnlyOwnValues | agent/guard.go:295-300 | a raise happens only from a target or from a value the card accepted from the guard |
| GuardRuns.SettledMeansQuiet | agent/guard.go:300-302 | as long as the card shows what is wanted nothing is set |
| GuardRuns.KeptMeansQuiet | agent/guard.go:287-330 | after an accepted limit that the card keeps nothing is set until the target changes |
| GuardRuns.AttemptsInARow | agent/guard.go:301-303 | two attempts in a row for one target are at least reapplyS apart |
| GuardSpacing.SameTargetSpacing | agent/guard.go:287-330 | any two attempts for one target are apart by reapplyS, by a whole stage 2, or by the longer of highS and the minute of recovery |
| GuardSpacing.SpacingIff | agent/guard.go:248-303 | all runs keep reapplyS between attempts for one target exactly if it exceeds neither the length of stage 2 nor that longer time |
| GuardSpacing.EarlySustained | agent/guard.go:248-303 | a run for all other parameters: the sustained limit tried before and right after a short stage 2 |
| GuardSpacing.EarlyStage2 | agent/guard.go:248-303 | a run for all other parameters: the stage 2 limit tried at the end of one phase and at the start of the next |
| GuardRuns.MissingPowerIff | agent/guard.go:236-273 | a run in which a missing power reading crashes the agent exists exactly if highS and highGapS are positive |
| GuardTargets.LowestIs | agent/guard.go:168-172 | the lowest limit is the card's minimum, or half its default |
| GuardTargets.TargetsAreAsked | agent/guard.go:168-182 | the sustained limit is the operator's in watts or else in percent of the default, stage 2 a percentage of the default - to the watt, or the bound it passes |
| GuardTargets.CallIsAsked | agent/guard.go:288-303 | every value passed to setLimit is the one asked for in the stage that was entered, within half a watt if it is admissible |
| GuardTargets.AttemptIff | agent/guard.go:295-303 | an attempt is made exactly if the limit is above the target, or below it at a value of the guard's own, and none was made for this target within reapplyS |
| GuardTargets.RefusalLasts | agent/guard.go:303-330 | how long a limit counts as not settable |
| GuardTargets.ConflictsAreRaises | agent/guard.go:313-330 | the conflicts counted are samples at which the card showed more than it had accepted, without a settled one in between; three warn |
| GuardTargets.ThirdRaiseWarns | agent/guard.go:313-319 | outside interference is reported with the third such sample |
| GuardWarnings.GuardWatch.WatchVoltage | agent/guard.go:354-388 | reference and episode after one reading; an unreadable sample changes nothing |
| GuardWarnings.LowIff | agent/guard.go:366-368 | the voltage is fine without load, or at the warning level and near enough to the reference |
| GuardWarnings.GuardWatch.WatchTemperature | agent/guard.go:390-408 | warning exactly while memory or hot spot reach their limits, event with the first such sample |
| GuardWarnings.GuardWatch.WatchHardware | agent/guard.go:411-428 | warning exactly while one of the three reasons is given, event with the first such sample |
| GuardWarnings.EventIff | agent/guard.go:367-387 | the event comes exactly with the first sample at which an unbroken episode has lasted its hold time |
| GuardWarnings.OncePerEpisode | agent/guard.go:367-387 | between two events lies a sample that was not bad |
| GuardWarnings.ReferenceIsRecent | agent/guard.go:359-365 | the reference rests on the last 1440 idle probes, at least a minute apart |
| GuardWarnings.MedianIsRobust | agent/guard.go:184-191 | a minority of wrong probes cannot move the reference past the good ones |
| GuardWarnings.MedianIsRounded | agent/guard.go:184-191 | five probes make a reference: the middle one to the millivolt |
| FileSwap.Installation.Rename | agent/ollamaupdate.go:408-419 | a rename moves exactly one entry or nothing |
| FileSwap.Installation.SwapTop | agent/ollamaupdate.go:421-442 | the loop of saving and placing, with its early exit |
| FileSwap.Installation.RollbackTop | agent/ollamaupdate.go:445-459 | the loop of taking back and restoring, failures passed over |
| FileSwapProofs.SwapExchanges | agent/ollamaupdate.go:421-442 | exactly the returned entries are exchanged, if what is tried after a failure passes |
| FileSwapProofs.RollRestores | agent/ollamaupdate.go:445-459 | rolling back exchanged entries restores all three folders |
| FileSwapProofs.FailedSwapIsUndone | agent/ollamaupdate.go:533-538 | with at most one failing rename the swap succeeds, or met it and is undone in all three folders by the rollback |
| FileSwapProofs.RollbackUndoesSwap | agent/ollamaupdate.go:551-553 | the rollback of a complete swap restores everything |
| FileSwapProofs.SuccessfulSwap | agent/ollamaupdate.go:421-442 | the install folder is the old one overridden by the new entries, the backup holds exactly the displaced ones |
| FileSwapProofs.NothingInstalledIsLost | agent/ollamaupdate.go:421-459 | whichever renames fail, every installed entry is in the install folder or in the backup |
| FileSwapProofs.InstallFolderRestoredIff | agent/ollamaupdate.go:421-459 | whichever renames fail, swap and rollback leave the install folder as it was exactly if every saved entry's restoring rename passes (or its replacement, equal in content, could not be taken away) and every new entry is taken back |
| FileSwapProofs.FailedRestoreLeavesInstallWithout | agent/ollamaupdate.go:434-436 | wherever the restoring rename of the stopped entry fails, that entry ends in the backup only |
| FileSwapProofs.StaleBackupComesBack | agent/ollamaupdate.go:445-459 | an entry left in the backup would be restored |
| OllamaUpdate.OneOrderAndHeldMoves | agent/ollamaupdate.go:171-192 | one order at a time, files move only under the held mark, every way out leaves the child released |
| OllamaUpdate.ApprovalComesFirst | agent/ollamaupdate.go:127-141 | files move only for an order whose release, naming exactly its version, came after the old ones were drained |
| OllamaUpdate.SuccessIsProven | agent/ollamaupdate.go:539-549 | an order without error was approved and the running Ollama reported its version afterwards |
| OllamaUpdate.OllamaUpdater.AwaitSwap | agent/ollamaupdate.go:127-141 | ends exactly with the first message naming the version |
| OllamaUpdate.OllamaUpdater.AwaitVersion | agent/ollamaupdate.go:541-549 | ends exactly with the first answer naming the version |
| OllamaUpdate.OllamaUpdater.Run | agent/ollamaupdate.go:473-556 | the folders and the result of one order; the child ends released |
| OllamaUpdate.AllOrNothing | agent/ollamaupdate.go:473-556 | with at most one failing rename on the way forward the install folder ends as the whole release or as it was; exactly when the order succeeds |
| AnthropicStream.AnthropicShape.constructor | router/skirnir_router/anthropic_api.py:261-270 | a new shape has no block and has sent nothing |
| AnthropicStream.AnthropicShape.Head | router/skirnir_router/anthropic_api.py:299-302 | a stream begins with message_start |
| AnthropicStream.AnthropicShape.Close | router/skirnir_router/anthropic_api.py:308-317 | the open block ends, a thinking block with its signature |
| AnthropicStream.AnthropicShape.Start | router/skirnir_router/anthropic_api.py:319-323 | the next index begins after the open block ended |
| AnthropicStream.AnthropicShape.Delta | router/skirnir_router/anthropic_api.py:325-338 | text goes to a block of its kind; hidden thinking sends at most a ping |
| AnthropicStream.AnthropicShape.UseTool | router/skirnir_router/anthropic_api.py:340-347 | a call is a whole block |
| AnthropicStream.AnthropicShape.End | router/skirnir_router/anthropic_api.py:349-356 | stop reason and counters once |
| AnthropicStream.AnthropicShape.Chunk | router/skirnir_router/anthropic_api.py:358-372 | one chunk: thinking, text, calls, end |
| AnthropicStream.AnthropicShape.Tail | router/skirnir_router/anthropic_api.py:374-376 | a stream without final chunk still ends |
| AnthropicGrammar.ChunkReads | router/skirnir_router/anthropic_api.py:358-372 | a chunk moves a reading client from where the shape was to where it is |
| AnthropicGrammar.GrammarIff | router/skirnir_router/anthropic_api.py:299-376 | a stream is in the event grammar exactly if nothing audible follows the final chunk |
| AnthropicReplay.ReplayIsMerged | router/skirnir_router/anthropic_api.py:299-376 | a client rebuilds the node's pieces, merged, with the final chunk's stop reason and counters |
| AnthropicUnary.MergedIsTidy | router/skirnir_router/anthropic_api.py:325-338 | the blocks spell exactly what the pieces spell and no two neighbours could be one |
| AnthropicUnary.TidyIsUnique | router/skirnir_router/anthropic_api.py:325-338 | there is only one such list of blocks |
| AnthropicUnary.StreamEqualsUnaryIff | router/skirnir_router/anthropic_api.py:279-292 | stop reason and usage always equal the answer in one piece; the blocks do exactly for thinking-text-tools order |
| AnthropicEnding.EndingIs | router/skirnir_router/anthropic_api.py:230-238 | the client's input and output counters are the final chunk's prompt and generated tokens, zero without one; it stops for tools exactly if a tool block was sent, for length exactly if none was and the node says so |
| AnthropicEnding.WholeEndingIs | router/skirnir_router/anthropic_api.py:230-238 | the same of the answer in one piece |
| AnthropicEnding.ToolIsItsCall | router/skirnir_router/anthropic_api.py:241-247 | every tool block has its call's name and input, and its id or the next made one |
| AnthropicEnding.PingIff | router/skirnir_router/anthropic_api.py:330-336 | a ping is sent exactly for hidden thinking in an open block after keepalive seconds of silence |
| AnthropicEnding.ThinkingIsHeard | router/skirnir_router/anthropic_api.py:330-372 | a thinking chunk keepalive seconds after the last thing sent always sends something |
| AnthropicUnary.HidingKeepsBlocks | router/skirnir_router/anthropic_api.py:330-338 | hiding thinking changes no block's kind, index or other content |
| AnthropicUnary.HiddenSaysNothing | router/skirnir_router/anthropic_api.py:330-338 | a stream that hides thinking holds none of its text |
| OpenAIStream.Sorted | router/skirnir_router/cloud.py:649-651 | the indices in ascending order, each once |
| OpenAIStream.Collect | router/skirnir_router/cloud.py:640-646 | the fragments of a delta go to their calls |
| OpenAIStream.Gen | router/skirnir_router/cloud.py:626-652 | pieces, calls and usage of a stream; the reason is "length" exactly if the last finish_reason says the answer was cut off |
| OpenAIStream.ReasonIs | router/skirnir_router/cloud.py:362-369 | "length" exactly after a last finish_reason of length or max_tokens, otherwise "stop" |
| OpenAIStream.UsageIs | router/skirnir_router/cloud.py:630-632 | the counters of the last event that has any |
| OpenAIStream.ArgsAre | router/skirnir_router/common.py:83-92 | arguments are the empty object exactly if their text is missing or white space |
| OpenAIStream.CallIs | router/skirnir_router/cloud.py:640-651 | a call has the last id sent, and its names and argument texts in order |
| OpenAIStream.UnaryIs | router/skirnir_router/cloud.py:612-624 | reason, usage, texts and calls of the answer in one piece |
| OpenAIStream.InterleavingIsFree | router/skirnir_router/cloud.py:640-651 | only the fragments of one index, in order, make its call |
| OpenAIStream.AscendingIsUnique | router/skirnir_router/cloud.py:649-651 | the order of the calls is determined by their indices |
| OpenAIStream.StreamEqualsUnary | router/skirnir_router/cloud.py:612-652 | however an answer is cut and interleaved, the coalesced stream is the unary answer |
| OpenAIStream.StreamedAnswer | router/skirnir_router/cloud.py:612-652 | the same for the generator's own output |
| Lines.FindNewline | agent/logging.go:88-95 | the first newline or -1 |
| Lines.EndedConcat | agent/logging.go:64-80 | the lines of a text do not depend on what follows, the rest carries over |
| Lines.LinesGlue | agent/logging.go:64-80 | the lines with their newlines, and the rest, are the bytes |
| ChildLog.ChildWriter.Write | agent/logging.go:64-86 | what one write logs and keeps; the buffer is at most 64 KiB |
| ChildLog.LogIsSplitIff | agent/logging.go:64-86 | the log is the newline split of all output exactly if no unfinished line exceeds 64 KiB |
| ChildLog.ChunksDoNotMatter | agent/logging.go:64-86 | two ways to cut the same output leave the same log |
| ChildLog.BufferIsBounded | agent/logging.go:82-85 | the buffer is bounded over every run, whatever comes |
| ServerEvents.Sse | router/skirnir_router/cloud.py:476-492 | what is read is a function of the concatenated bytes alone |
| ServerEvents.NothingAfterDone | router/skirnir_router/cloud.py:486-487 | nothing after a [DONE] line is read |
| ServerEvents.UnfinishedLineIsDropped | router/skirnir_router/cloud.py:481-483 | an unfinished last line is never read |
| ServerEvents.DataLine | router/skirnir_router/cloud.py:483-492 | a data: line with any white space around its value ends the reading, yields its JSON, or is passed over |
| ServerEvents.OtherLine | router/skirnir_router/cloud.py:483-485 | every other line is passed over |
| History.ReadTurn | router/skirnir_router/anthropic_api.py:97-120 | the blocks of one turn, or the error |
| History.MessagesToNative | router/skirnir_router/anthropic_api.py:75-131 | the native messages, or the 400 |
| History.AnBody | router/skirnir_router/cloud.py:395-432 | system text, messages and ids for an Anthropic provider |
| HistoryProofs.OnlyResultsRepeatRoles | router/skirnir_router/cloud.py:412-432 | for any input two neighbours share a role only if the second is a tool result |
| HistoryIds.IdsAre | router/skirnir_router/cloud.py:404-426 | the ids of all calls and results of the output, and the waiting list, for every history |
| HistoryIds.SameIdIff | router/skirnir_router/cloud.py:422-426 | two numbered calls share an id exactly if as many calls were taken off between their turns as lie between them |
| HistoryIds.OwnIdIff | router/skirnir_router/cloud.py:410-411 | a result without an id carries the id of the call it is meant for exactly if the call it takes has the same number |
| HistoryIds.SurplusResultNamesFirst | router/skirnir_router/cloud.py:410-411 | a result no call waits for carries the id of the first call |
| HistoryIds.ResultsCarryOwnIds | router/skirnir_router/cloud.py:404-426 | as long as a call waits for every result, the j-th result carries the id of the j-th call |
| HistoryIds.TurnsCarryOwnIds | router/skirnir_router/cloud.py:404-426 | turns answered in call order before the next: each result carries its own call's id, which no other waiting call has |
| HistoryIds.UnansweredCallsShiftIds | router/skirnir_router/cloud.py:404-426 | the results of a turn are late by as many calls as were still waiting when it came |
| HistoryIds.ShiftedIdIsOwnIff | router/skirnir_router/cloud.py:404-426 | when such a result carries its own call's id after all |
| HistoryIds.PartlyAnsweredTurnsCollide | router/skirnir_router/cloud.py:422-424 | after one of two calls was answered the next call gets the id of the one still waiting |
| HistoryIds.KeptIdNamesIff | router/skirnir_router/cloud.py:410-424 | a kept client id names a call of the output exactly if it is one of the numbered ids given out |
| HistoryIds.ConvertedHistoriesQualify | router/skirnir_router/anthropic_api.py:51-131 | converted histories have no ids on calls, and on results none or the client's |
| HistoryProofs.HistoryConverts | router/skirnir_router/anthropic_api.py:75-131 | what a history of text, images and thinking becomes natively |
| HistoryProofs.TurnSurvivesIff | router/skirnir_router/cloud.py:414-432 | exactly which turn comes back unchanged |
| HistoryProofs.RoundTripIff | router/skirnir_router/anthropic_api.py:198-225 | roles and system text always come back; all texts and images exactly if every turn can be carried |
| HistoryProofs.AssistantImagesAreLost | router/skirnir_router/anthropic_api.py:121-125 | an image in an assistant turn never comes back |
| HistoryTools.ConvertsIff | router/skirnir_router/anthropic_api.py:75-120 | exactly which histories are refused |
| HistoryTools.ResultIs | router/skirnir_router/anthropic_api.py:51-72 | text, error mark, tool name, id and images of a converted result |
| HistoryTools.ResultsInOrder | router/skirnir_router/anthropic_api.py:108-121 | a turn's results come in order |
| HistoryTools.EmittedIs | router/skirnir_router/anthropic_api.py:121-131 | a turn's results come before its own message, which has all its text |
| HistoryTools.CallsInOrder | router/skirnir_router/anthropic_api.py:105-107 | an assistant turn's calls keep name and input, in order |
| HistoryTools.HistoryNames | router/skirnir_router/anthropic_api.py:105-106 | the name remembered for an id is that of the last call with it, over the whole history |
| HistoryTools.ResultNamesItsTool | router/skirnir_router/anthropic_api.py:51-72 | a result names the tool whose call it answers |
| HistoryTools.CallsArePassedOn | router/skirnir_router/cloud.py:414-426 | the provider gets text, images and calls of an assistant in this order, calls unchanged |
| HistoryTools.ResultIsPassedOn | router/skirnir_router/cloud.py:410-413 | and every result in a user message of its own, its text unchanged |
| HistoryTools.JoinedIs | router/skirnir_router/anthropic_api.py:31-39 | texts are joined with an empty line between them |
| HistoryTools.IdIsDecimal | router/skirnir_router/cloud.py:423-424 | the n-th pending call is toolu_ and n in decimal |
| HistoryTools.SystemComesFirst | router/skirnir_router/anthropic_api.py:198-225 | the system text comes first, with the hint for a forced tool behind it |
| Admission.Queue.Enter | router/skirnir_router/admission.py:45-53 | queued, or refused exactly when the queue is full |
| Admission.Queue.Leave | router/skirnir_router/admission.py:57-62 | exactly this entry goes |
| Admission.Queue.Release | router/skirnir_router/admission.py:64-74 | wakes the first best eligible waiter, or nobody if there is none |
| Admission.WokenHasRoom | router/skirnir_router/admission.py:23-33 | whoever is woken waited on this node, and with it the node stays within its own limit and the model's |
| Admission.NobodyFitsIff | router/skirnir_router/admission.py:64-70 | nobody is woken exactly if the node has room for none of those waiting on it |
| Admission.OrderIgnoresClock | router/skirnir_router/admission.py:41-42 | the order of two requests is the same at every time |
| Admission.OvertakingIsBounded | router/skirnir_router/admission.py:41-42 | who overtakes came less than priority difference times aging_s later |
| Admission.NewcomersStayBehind | router/skirnir_router/admission.py:41-42 | two aging times later nobody new gets ahead |
| AdmissionRuns.QueueIsBounded | router/skirnir_router/admission.py:45-62 | at most max_queue entries at every moment of every run |
| AdmissionRuns.EligibleReleaseHelps | router/skirnir_router/admission.py:64-74 | a release a waiter is eligible for wakes it or removes exactly one of those not behind it |
| AdmissionRuns.RivalsStopGrowing | router/skirnir_router/admission.py:41-62 | after two aging times no new request joins those not behind a waiter |
| AdmissionRuns.BoundedOvertaking | router/skirnir_router/admission.py:41-74 | a request is passed over at most as often as its rivals are woken, and all of them came within two aging times |
| Rollout.Registry.UpsertHello | router/skirnir_router/registry.py:113-132 | a login: version change stamped, order settled, drain ended |
| Rollout.Registry.NoteReport | router/skirnir_router/agentupdate.py:134-163 | which reports change an order, and how |
| Rollout.Registry.OrderUpdate | router/skirnir_router/agentupdate.py:188-230 | all refusals, and the order with its drain |
| Rollout.Registry.RolloutOnce | router/skirnir_router/agentupdate.py:307-336 | one round over the register |
| RolloutRuns.RoundSendsAtMostOne | router/skirnir_router/agentupdate.py:307-336 | at most one order, to an approved, connected, idle node without a fresh order or a fresh failure |
| RolloutRuns.AutomaticOrdersFollowCanary | router/skirnir_router/agentupdate.py:199-330 | at an automatic order to another node the canary is online and has run the ordered version for the clean time less a second - exactly if both reads of the manifest agree |
| RolloutRuns.RunRemembers | router/skirnir_router/agentupdate.py:116-121 | the register knows an agent's version and since which second it has been running it |
| RolloutRuns.CanaryCleanIff | router/skirnir_router/agentupdate.py:263-275 | what the clean check decides, exactly |
| RolloutRuns.OrdersAreSpaced | router/skirnir_router/agentupdate.py:206-209 | an order that is not forced comes at least 15 minutes after any earlier one, or the order is neither requested nor downloading nor applied |
| RolloutOrders.EarlyOrderIsSettled | router/skirnir_router/agentupdate.py:124-163 | in terms of what the router heard: it comes earlier only if since then a report of another state, a login with the version or the removal of the agent settled the earlier one |
| RolloutOrders.OrderGoesOutIff | router/skirnir_router/agentupdate.py:188-230 | exactly when an order goes out, and what it records |
| RolloutOrders.RoundWaitsAfterFailure | router/skirnir_router/agentupdate.py:281-297 | no automatic order within half an hour of a failure by policy, or six hours of any other |
| RolloutOrders.PicksIff | router/skirnir_router/agentupdate.py:307-330 | whom a round may pick |
| RolloutOrders.IdleRoundHasNobody | router/skirnir_router/agentupdate.py:316-336 | a round that sends nothing had nobody it may send to |
| RolloutOrders.LoginSettles | router/skirnir_router/agentupdate.py:116-131 | what a login does to an order and to the drain |
| RolloutOrders.ReportReplaces | router/skirnir_router/agentupdate.py:134-163 | what a report replaces, and which reports change nothing |
| RolloutOrders.DownloadMovesOn | router/skirnir_router/agentupdate.py:246-249 | a download moves a requested order on, and nothing else |
| RolloutRuns.ForeignReportChangesNothing | router/skirnir_router/agentupdate.py:145-146 | a report for another version leaves everything as it was |
| RolloutRuns.OnlyOrdersChangeVersion | router/skirnir_router/agentupdate.py:134-163 | only a new order changes the version of a node's order |
| RolloutRuns.CleanTimeCanBeShort | router/skirnir_router/agentupdate.py:274-275 | for every clean time and all versions an order 0.9 s before it is over |
| RolloutRuns.SecondReadEscapesCanary | router/skirnir_router/agentupdate.py:199-205 | for any two versions the two reads may see, and any clean time, an order for one that no node has run |
| Discovery.MQTTModule.SetApplies | agent/mqtt.go:149-153 | one group is decided |
| Discovery.MQTTModule.Collect | agent/mqtt.go:421-456 | what one collection decides |
| Discovery.CollectDecides | agent/mqtt.go:441-456 | the alias never applies to an OpenAI-compatible upstream and stays as it was without an answer; STT follows the child, a sensor group its values |
| Discovery.WantedIs | agent/mqtt.go:155-166 | entities without a group are always wanted, the others as decided, and not at all before that |
| Discovery.MQTTModule.SyncDiscovery | agent/mqtt.go:291-329 | what a sync publishes and remembers |
| Discovery.MQTTModule.Connected | agent/mqtt.go:210-214 | a reconnect forgets what was announced |
| Discovery.SyncReconciles | agent/mqtt.go:291-316 | every entity of a known group is retained exactly if wanted, undecided ones are untouched |
| Discovery.ForeignTopicsStay | agent/mqtt.go:291-326 | a sync touches no topic but its own and the legacy ones |
| Discovery.FirstSyncClearsLegacy | agent/mqtt.go:317-325 | the first sync removes the entities of older versions |
| Discovery.RepeatIsSilent | agent/mqtt.go:303-306 | a repeated sync publishes nothing |
| Discovery.EverySyncReconciles | agent/mqtt.go:210-219 | after every sync of every run with reconnects and any broker contents the broker holds what this node has |
| Discovery.SensorsStay | agent/mqtt.go:543-557 | a sensor group that applies does so for good |
| Discovery.SensorsAreNeverDeleted | agent/mqtt.go:543-557 | no run deletes an entity of the sensor groups |
| RateWindow.Client.Check | router/skirnir_router/auth.py:136-148 | the deque after an attempt, and whether it passes |
| RateWindow.RecentIsWindow | router/skirnir_router/auth.py:139-142 | the deque holds exactly the attempts of the last 60 seconds |
| RateWindow.PassIff | router/skirnir_router/auth.py:143-148 | a request passes exactly if the attempts of the last 60 seconds, refused ones included, are at most n |
| RateWindow.WindowBound | router/skirnir_router/auth.py:136-148 | in every closed 60-second window at most n requests pass |
| RateWindow.CalmIsNeverRefused | router/skirnir_router/auth.py:136-148 | a client within the limit is never refused |
| RateWindow.HammeringIsRefused | router/skirnir_router/auth.py:136-148 | a client that keeps trying beyond the limit is refused every time |

## Left out

- HandOver.StepKeepsInv: a child's phases are stopped, starting and running; the process tree, backoff, attempt counter and restarts for other reasons are the events that move it.
- UpstreamHolds.UpstreamHold.Sample: the learned memory need (`runPeak`, `endRun`, `saveMemo`) is a parameter; only the check against it is modelled.
- UpstreamHolds.UpstreamHold.StartHeld: loading the remembered models from the file is its parameter.
- StartGrace.ReleaseNeverReportsDown: polls are single steps at their begin; the duration of a request only makes them rarer.
- WatchRuns.OllamaLoop: writes succeed or end the session; the loop's timer is the list of its turns.
- Guard.GuardEngine.Step: an enabled guard with readable limits; the states "off" and "unavailable" and the status texts are not modelled.
- GuardWarnings.GuardWatch.WatchVoltage: clock readings are monotone in the theorems about episodes.
- FileSwap.Installation.Rename: the ten tries of one rename are one attempt, and an entry is a name with a file, whatever it contains.
- FileSwapProofs.FailedSwapIsUndone: one rename fails; `InstallFolderRestoredIff` is about any number of them and the install folder.
- OllamaUpdate.OllamaUpdater.Run: download, checksum, extraction and probe are one result; syncRegistration and the report texts are not modelled.
- AnthropicStream.AnthropicShape.Chunk: message ids, model names, the routing block and the text form of an event are not modelled; generated tool ids are a numbered supply.
- AnthropicUnary.StreamEqualsUnaryIff: `stream_error` and the shape's `bind` are not modelled.
- OpenAIStream.Gen: HTTP errors, clock readings and the request are not modelled; a fragment without an index has index 0, and an argument text that is no JSON is not told apart from one that is.
- ServerEvents.Sse: the JSON parser is any function from bytes to an object or an error.
- ChildLog.ChildWriter.Write: timestamps and file rotation are not modelled.
- History.MessagesToNative: error texts are not modelled; a tool result's content is text or a list of items.
- History.AnBody: the path /api/generate, options and tool definitions are not modelled.
- Admission.Queue.Enter: waiting itself is the time between `Enter` and `Leave`; a recheck is leaving and entering again with the first queueing time.
- AdmissionRuns.BoundedOvertaking: how often a woken request finds the node full again is its parameter; the scheduler is not part of this model.
- Admission.OrderIgnoresClock: ranks are real numbers; rounding of floats could make nearly equal ones equal.
- Rollout.Registry.OrderUpdate: tokens, the message to the agent and the texts are not modelled; one clock reading stands for the two of the code.
- Rollout.Registry.UpsertHello: the search for a free name is a parameter; stamps are whole seconds of one clock, without changes of the time zone.
- RolloutRuns.RoundSendsAtMostOne: the older agents' failure texts are a parameter of the retry time.
- Discovery.MQTTModule.SyncDiscovery: publishes are reliable and steps serial; the payload of an entity is a constant of the configuration.
- RateWindow.WindowBound: clock readings do not decrease and the limit is fixed.
- The router's Ollama rollout (router/skirnir_router/ollamaupdate.py) repeats the agent rollout's pattern.
- OpenAI and generate requests (`_oa_messages`, `_oa_body`), embeddings and the Anthropic provider's stream: the same kind of field copying and collecting as what is modelled.
- The scheduler, the proxy and polling of nodes: what they decide is a parameter.
- The frames of a tunnelled request (`Tunnel.handle`).
