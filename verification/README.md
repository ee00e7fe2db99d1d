# OpenCuttles, verified core

OpenCuttles is a control plane for UI testing: it starts virtual devices, drives desktops through
runners that dial home, lets an agent work through test cases, and keeps the results. This project
models the parts of it where the difficulty lies, in Dafny 4.11, and proves what they keep over every
input, every interleaving and every restart. `dafny verify dfyconfig.toml` checks all of it.

| module | what it models |
|---|---|
| `RunnerRegistry` | the hub's session map, superseding and disconnecting streams, the online/offline callbacks |
| `Tunnel` | calls over a session: numbering, the bounded outbox, the wire, the runner's handlers, replies on a separate POST |
| `CycleEngine` | test-cycle execution: device flag, active device, binding, step reports, totals, final status |
| `Attribution` | which case run a reported step lands in, and when it is lost |
| `CycleScenarios` | runs of the cycle engine from its initial state in which things go wrong |
| `Verdicts` | classification of a case, and how exports and insights read it back |
| `CaseTable`, `CaseLayout` | the case exporter and the QMetry importer |
| `Migration` | the schema migration, cut short anywhere and started again |
| `TimeText` | RFC 3339 timestamps compared as text |
| `Scheduler` | the cron loop, the schedule columns and the startup sweep |
| `Ports` | ADB port allocation |
| `Lifecycle` | start, deploy, stop, delete and reconciliation of a virtual device |
| `Install` | desktop installs on the runner: request, background job, status; the polling loop |
| `RemoteInstall` | desktop installs over the tunnel: the product of `Tunnel` and `Install` |
| `Passwords` | PBKDF2, base64 and the stored form of a password |
| `RateLimiter` | the sign-in limiter |
| `SpecDoc` | cleaning and capping the text of an uploaded document |
| `Text`, `Wrappers` | string operations and the option type the others share |

Concurrent parts are step relations: every lock region, store statement or transaction, message and
foreign outcome is one atomic step, `IsRun(s, run)` says that `run` is an interleaving, and a theorem
about `After(s, run)` holds of all of them. Objects the program updates in place are classes whose
methods are proved to take their abstract value through those steps; loops are methods proved against
the functions the theorems are about.

## Where the code does not do what one would hope

Each of these has a lemma with a run from the initial state or an input for which it fails, and next
to it a theorem that says when the hoped-for property does hold.

- Call numbers restart with every session, so a reply that outlives its session can answer another
  command (`StaleReplyAnswersNextSession`; `Provenance` says which calls, `ExactlyOnce` when never).
  An install can so be reported as done for a build whose installer is still running
  (`NilWithoutInstall`; `DoneCameFrom` says what a done means in every run, `NilMeansInstalled` when it
  means what it says).
- A superseded stream reports the device offline on its way out (`SupersededStreamHidesSuccessor`;
  `StoredFlagAtQuiescence` is exact).
- The active device is one variable for all cycle runs, and reports are taken from anyone at any time:
  a step can land in another device's case run (`StepLandsInOtherRun`), and an agent whose call has
  timed out can make the next cycle run green (`LateReportMakesGreen`). `ReportGoesHomeIff` is exact,
  and `StepLandsInItsRun` gives a discipline under which it never happens.
- Two overlapping reports can lose a step (`OverlappingReportsLoseAStep`; `NoStepLostIff` is exact), and so
  can the executor's own last write when a report comes after its last look at the row
  (`StepLostAtRecord`; `NoStepLostAtRecordIff` is exact). `RowHoldsItsReports` says when no step ever is.
- A pass is promised only when every expected step was reported; the code counts reports instead
  (`RepeatedStepMakesGreen`; `PassReportsAllIff` and `GreenReportsAllIff` are exact).
- A cycle whose cases cannot be read, or that has none, ends passed (`UnreadableCycleIsGreen`,
  `EmptyCycleIsGreen`; `FinishPassesIffGreen` is exact), and a status word such as `failed` is stored as
  a pass (`FailedIsStoredAsPass`; `StatusStored` is exact).
- A space behind an outer slash of a folder survives one import and not the next
  (`SpaceBehindSlash`; `ReimportChangesFoldersOnly` and `RoundTripIff` are exact).
- An index of another table placed on a `test_runs` that still has its old foreign key makes the
  migration need two starts (`MisplacedIndexNeedsTwoStarts`; `ConvergesIff` is exact, and
  `FailedConverges` covers a migration that fails).
- A fraction whose digits begin a later one of the same second sorts after it
  (`FractionSortsFirst`; `TextOrderWithinSecond` is exact).
- A schedule without a next occurrence is due at every tick (`NoOccurrenceIsAlwaysDue`), a start by hand
  between listing and starting overlaps (`StartByHandOverlaps`; `NoOverlapByCron` is exact), and saving a
  cycle that was read before a tick starts it twice (`StaleEditStartsTwice`; `EditBreaksIff` says exactly
  which saves can do that, and `StartsAreSeparated` holds of all runs without them). Saving a row with the
  time it holds, or with one computed anew, is harmless (`SavedCasesAreHarmless`, `FreshTimeIsHarmless`).
- The first virtual device created beside desktops only gets port 1 (`DesktopFirst`; `PortsHighIff` is
  exact).
- Reconciliation leaves `provisioning` alone: an interrupted deploy leads there
  (`DeployCrashLeavesProvisioning`) and only a delete leads out (`ProvisioningStays`). A delete never
  takes its stop branch (`DeleteNeverStops`). Overlapping operations can report success on a device in
  another state (`OverlapBreaksOutcome`; `RightIffOwnRow` is exact, `LastWriterIsRight` says who is never
  wrong, and `OutcomeIsRow` holds when operations do not overlap).
- An operation writes its failure and its end under the deadline of its foreign calls. When that passes,
  both writes are lost: the device stays stopping, and the operation row running
  (`HangingStopIsLost`; `FinishesOnce` and `OutcomeIsRow` are exact about it).
- An installer that fails with an empty message leaves its build installing for good
  (`EmptyMessageNeverEnds`; `StatusTellsEnding` is exact). Whether one does depends on the installer of
  the platform, which is a parameter here; the runner's own errors have a text.
- Two blank lines can meet where a document is cut, although squeezing is meant to leave none
  (`BlankLinesMeetAtCut`; `AcceptedText` is exact).

## Model

| member | source | states |
|---|---|---|
| `RunnerRegistry.OnlineMeansLatestStreamOpen` | backend/internal/runnerhub/hub.go:140-213 | in every interleaving of connects, drops and disconnects a device has a registered session exactly when its latest stream is open and not disconnected, and it is that stream |
| `RunnerRegistry.ClosedIff` | backend/internal/runnerhub/hub.go:147-192 | in every run a stream's tunnel is cut, for good, if and only if a later stream of the device took its place or its disconnect came to the close |
| `RunnerRegistry.OpenStreamsAccounted` | backend/internal/runnerhub/hub.go:147-213 | in every run a stream still in its loop is registered, closed, or about to be closed by the disconnect that took it out |
| `RunnerRegistry.StoredFlagAtQuiescence` | backend/internal/runnerhub/hub.go:195-213 | when nothing is under way for a device, the stored flag is wrong if and only if, in the run, an older stream of the device said farewell after the registered one had greeted |
| `RunnerRegistry.StoredFlagWithoutOverlap` | backend/internal/api/server.go:123-131 | if a device's streams never overlap, the stored flag equals `Online` at quiescence |
| `RunnerRegistry.SupersededStreamHidesSuccessor` | backend/internal/runnerhub/hub.go:204-213 | a run in which a connected device ends up stored as offline |
| `RunnerRegistry.Hub.constructor` | backend/internal/runnerhub/hub.go:135-137 | a new hub has no sessions |
| `RunnerRegistry.Hub.Register` | backend/internal/runnerhub/hub.go:189-203 | registering leaves the new stream, the newest, registered and open, and the previous one closed |
| `RunnerRegistry.Hub.Deregister` | backend/internal/runnerhub/hub.go:204-209 | a stream's cleanup removes its own session only; a successor stays registered |
| `RunnerRegistry.Hub.Report` | backend/internal/api/server.go:123-131 | a callback stores the flag of its device as the step of the model does and keeps the invariant |
| `RunnerRegistry.Hub.Drop` | backend/internal/runnerhub/hub.go:147-162 | afterwards the device is offline and the session that was registered is closed; the answer says whether there was one |
| `Tunnel.Correlation` | backend/internal/runnerhub/hub.go:71-119 | a successful call returns the result of a reply with its own id from its own device, matched while the call was pending, and no other call got that reply |
| `Tunnel.OutboxBounded` | backend/internal/runnerhub/hub.go:88-94 | in every run an outbox holds at most sixteen commands, and a call waits to queue its own exactly while it holds as many |
| `Tunnel.FirstReplyWins` | backend/internal/runnerhub/hub.go:109-119 | the first reply to reach a call's one-slot channel is the one it gets, if any; a later one is dropped without a trace |
| `Tunnel.NothingWrittenAfterExit` | backend/internal/runnerhub/hub.go:204-243 | a stream that has left its loop writes no command any more |
| `Tunnel.FaultsAtAnyTime` | runner/tunnel.go:46-112 | replies can be lost or repeated, frames cut off and waiting calls given up at any time |
| `Tunnel.CallGoesToRegistered` | backend/internal/runnerhub/hub.go:164-173 | in every run a call to a device without a registered session fails, for good; any other stays with the session registered when it was made |
| `Tunnel.Provenance` | backend/internal/runnerhub/hub.go:246-266 | the reply came from the call's own session and the runner handled that command exactly once with this result, or it came from an earlier session and answers another call with the same number |
| `Tunnel.ExactlyOnce` | runner/tunnel.go:46-112 | if no reply outlives its session, a successful call's command was handled exactly once and its value is what that handling produced |
| `Tunnel.StaleReplyAnswersNextSession` | backend/internal/runnerhub/hub.go:189-194 | a run in which a call succeeds with the result of another command of the session before |
| `Tunnel.InvAlways` | backend/internal/runnerhub/hub.go:71-119 | ledgers, pipes, posts and channels stay consistent in every run |
| `Tunnel.LedgersStep` | backend/internal/runnerhub/hub.go:71-107 | every step keeps the pending map equal to the numbered calls that are waiting |
| `Tunnel.PipesStep` | runner/tunnel.go:46-56 | every step keeps each command in at most one place between outbox and finished handler |
| `Tunnel.PostsStep` | backend/internal/runnerhub/hub.go:246-266 | every step keeps each posted reply tied to the handler run that produced it |
| `Tunnel.Session.Enter` | backend/internal/runnerhub/hub.go:76-83 | a call gets a number no pending call has |
| `Tunnel.Session.Erase` | backend/internal/runnerhub/hub.go:82-86 | forgetting a call removes its number and no other |
| `Tunnel.Session.Find` | backend/internal/runnerhub/hub.go:109-119 | a number finds the call that got it in this session, or nothing |
| `CycleEngine.DeviceExclusion` | backend/internal/scenario/cycle.go:109-125 | in every interleaving at most one cycle run per device is past the guard, and a binding is absent or names the holder's current case run |
| `CycleEngine.FlagClearedOnlyByHolder` | backend/internal/scenario/cycle.go:111-125 | only the cycle run that took a device's flag clears it |
| `CycleEngine.TotalsConserved` | backend/internal/scenario/cycle.go:138-166 | persisted counters never exceed the cases, and at a finish equal them unless the run was cut short after some were counted |
| `CycleEngine.GreenNeedsEvidence` | backend/internal/scenario/cycle.go:171-263 | a cycle run ends passed only if every case was unreadable or had an error-free call and complete evidence |
| `CycleEngine.FinishPassesIffGreen` | backend/internal/scenario/cycle.go:160-166 | a cycle run that reaches its finish passes if and only if every case is so; one without cases passes |
| `CycleEngine.StatusIffGreen` | backend/internal/scenario/cycle.go:87-166 | every cycle run has a status exactly when it has let go of its device or never got it; with cases, passed if and only if all were handled and each is green, else failed |
| `CycleEngine.CycleRunsEnd` | backend/internal/scenario/cycle.go:109-217 | from any point of any run a cycle run that has not ended has a next step, and has ended after eight steps a case and three more |
| `CycleEngine.CutShort` | backend/internal/scenario/cycle.go:126-137 | a cycle run can lose its device only before its first case and be cancelled only with cases left |
| `CycleEngine.NewRow` | backend/internal/scenario/cycle.go:176-180 | a case run begins empty, running and without a verdict; if it cannot be made the case has failed |
| `CycleEngine.AnyoneMayAct` | backend/internal/mcp/server.go:134-149 | cycle runs, reports and choices of the active device can come at any time, from anyone |
| `CycleEngine.GreenReportsAllIff` | backend/internal/scenario/cycle.go:219-263 | in a passed cycle run every step of a case was reported if and only if the reports name as many different steps as the case has, with as many reports as steps if and only if each once |
| `CycleEngine.GreenIsStored` | backend/internal/scenario/cycle.go:187-223 | with no report in flight when a binding is cleared, the stored run of each readable case of a passed cycle run is marked passed and holds that evidence |
| `Attribution.ReportGoesHomeIff` | backend/internal/mcp/server.go:684-697 | in every run a report picks the case run of the agent that sent it if and only if it was resolved to that run's device and that run's agent call is still out or not yet cleaned up |
| `Attribution.NoStepLostIff` | backend/internal/store/cases.go:541-549 | a report adds its step behind all others if and only if the row's steps are at the write what they were at the read; no write in between is enough |
| `Attribution.NoStepLostAtRecordIff` | backend/internal/scenario/cycle.go:196-217 | the executor's last write of a case run keeps its steps if and only if they are what they were when it reloaded the row, or none after a failed reload; no write in between is enough |
| `Attribution.StepLandsInItsRun` | backend/internal/mcp/server.go:684-728 | with one executing device, nobody else choosing the active one, and reports serialized and sent during the call, a step is appended to the case run whose agent sent it and no other row changes |
| `Attribution.RowHoldsItsReports` | backend/internal/scenario/cycle.go:171-217 | under the same discipline and without a failed reload, the steps of every case run are at all times those of its own agent's recorded reports, in order, through the executor's writes too |
| `Attribution.BadReportNeverPasses` | backend/internal/scenario/cycle.go:160-263 | under that discipline a cycle run with a recorded report of its own that says fail or blocked never ends passed |
| `CycleScenarios.StepLandsInOtherRun` | backend/internal/mcp/server.go:134-149 | a run in which the step of one device's agent is stored in the case run of another device |
| `CycleScenarios.LateReportMakesGreen` | backend/internal/scenario/cycle.go:191-194 | a run in which a cycle run passes on a report of the agent that timed out in the run before |
| `CycleScenarios.OverlappingReportsLoseAStep` | backend/internal/store/cases.go:541-549 | a run in which two reports are recorded and the row holds one step |
| `CycleScenarios.StepLostAtRecord` | backend/internal/scenario/cycle.go:194-217 | a run in which a report under way when its call returned is recorded and then overwritten by the executor |
| `CycleScenarios.RepeatedStepMakesGreen` | backend/internal/scenario/cycle.go:255-257 | a run in which two reports of the first of two steps make the cycle run pass, the second unreported |
| `CycleScenarios.UnreadableCycleIsGreen` | backend/internal/scenario/cycle.go:145-165 | a run in which a cycle whose only case is unreadable ends passed |
| `CycleScenarios.EmptyCycleIsGreen` | backend/internal/scenario/cycle.go:138-166 | a run in which a cycle without cases ends passed |
| `CycleEngine.HandlerRun` | backend/internal/mcp/server.go:684-728 | the report handler, undisturbed, is a run of the step relation that ends with the step in the run bound to the resolved device |
| `CycleEngine.StepTells` | backend/internal/mcp/server.go:695-708 | a recorded step says fail or blocked if and only if the report does, else pass, with the text of the step it names and the trimmed note |
| `CycleEngine.Engine.constructor` | backend/internal/scenario/cycle.go:73-84 | a new process is in the initial state |
| `CycleEngine.Engine.Acquire` | backend/internal/scenario/cycle.go:111-116 | takes the state through the guard step; busy if and only if some run is past the guard of the device, and who gets the flag is alone there |
| `CycleEngine.Engine.Release` | backend/internal/scenario/cycle.go:121-125 | takes the state through the release step; afterwards no run is past the guard of the device |
| `CycleEngine.CountCases` | backend/internal/scenario/cycle.go:138-166 | each case is counted once under its category, the counters sum to the cases, and the status is passed exactly when none failed or was blocked |
| `CycleEngine.Engine.SetActive` | backend/internal/mcp/server.go:105-109 | takes the state through the activation step; whatever report is resolved next goes by this device |
| `CycleEngine.Engine.BindRun` | backend/internal/mcp/server.go:113-117 | takes the state through the binding step; a report that looks the device up next is aimed at the case run being started |
| `CycleEngine.Engine.UnbindRun` | backend/internal/mcp/server.go:120-124 | takes the state through the unbinding step; a report that looks the device up next is ignored |
| `CycleEngine.Engine.ReportStep` | backend/internal/mcp/server.go:684-728 | goes through steps of the model; recorded exactly when the resolved device is bound: one step at the end of that run that tells what was reported, and no other run changes |
| `Verdicts.ClassifyCase` | backend/internal/scenario/cycle.go:219-263 | the scan gives fail, blocked and pass each in exactly its cases, and pass exactly on complete evidence |
| `Verdicts.AdmitsFailureIff` | backend/internal/scenario/cycle.go:245-250 | a summary admits a failure if and only if "fail", "block" or "could not" stands in it in any case |
| `Verdicts.ClosedTells` | backend/internal/scenario/cycle.go:202-216 | a stored case keeps its steps, is passed exactly on complete evidence, and its status word says so |
| `Verdicts.PassNeedsEvidence` | backend/internal/scenario/cycle.go:219-263 | pass if and only if no agent error, at least one step, at least as many as the case has, none failed and none blocked |
| `Verdicts.PassReportsAllIff` | backend/internal/scenario/cycle.go:219-263 | of a green case, every step was reported if and only if the reports name as many different steps of the case as it has |
| `Verdicts.AllReportedIffOneEach` | backend/internal/scenario/cycle.go:255-257 | with exactly as many reports as steps: if and only if each names a step of the case and none is named twice |
| `Verdicts.StatusStored` | backend/internal/mcp/server.go:695-698 | a text is stored as fail or blocked if and only if it is that word in any case with nothing but space around it, and every other text as a pass |
| `Verdicts.FailedIsStoredAsPass` | backend/internal/mcp/server.go:695-698 | "failed" is stored as a pass |
| `Verdicts.RunStatus` | backend/internal/insights/insights.go:123-142 | the three scans give pass if the run is marked so, else fail if and only if a step failed, else blocked, as the JUnit verdict does |
| `Verdicts.ReadersAgree` | backend/internal/export/export.go:243-253 | readers see the executor's category except exactly when it is fail and no stored step failed; then they see blocked |
| `Verdicts.JUnitCounts` | backend/internal/export/export.go:142-175 | every case run is one test, failures and skips are counted by verdict, the rest are passes |
| `Verdicts.SortByStart` | backend/internal/insights/insights.go:59-59 | a permutation of the runs, oldest first |
| `Verdicts.Summarize` | backend/internal/insights/insights.go:64-108 | counters sum to the runs, flips count status changes, flaky means at least two flips with a pass and a non-pass |
| `Verdicts.CaseHealth` | backend/internal/insights/insights.go:57-108 | the summary covers the latest runs, at most twenty, and its counts add up to them |
| `Verdicts.SteadyNeverFlips` | backend/internal/insights/insights.go:76-78 | no flips if and only if every run ended like the one before |
| `CaseTable.AliasesDisjoint` | backend/internal/qmetry/import.go:29-42 | no word is an alias of two fields |
| `CaseTable.FieldOfAlias` | backend/internal/qmetry/import.go:29-42 | a header names a field if and only if it is one of its aliases |
| `CaseTable.CaseColumnWords` | backend/internal/qmetry/import.go:29-42 | exactly which words name the summary, description, precondition, priority and status |
| `CaseTable.ListColumnWords` | backend/internal/qmetry/import.go:29-42 | exactly which words name labels, components, folder and key |
| `CaseTable.StepColumnWords` | backend/internal/qmetry/import.go:29-42 | exactly which words name the three step columns |
| `CaseTable.HeaderCharacter` | backend/internal/qmetry/import.go:190-198 | a header is read as its ASCII letters, in lower case, and digits |
| `CaseTable.MatchColumn` | backend/internal/qmetry/import.go:168-182 | the walk over the alias table gives the same field in every order |
| `CaseTable.MapHeaders` | backend/internal/qmetry/import.go:159-188 | in every walking order each field goes to the first column that claims it, and the warnings name exactly the columns that got none |
| `CaseTable.MapUnique` | backend/internal/qmetry/import.go:159-188 | the header determines the column map |
| `CaseTable.IsBlankRow` | backend/internal/qmetry/import.go:227-234 | true exactly when every cell is blank |
| `CaseTable.SplitParts` | backend/internal/qmetry/import.go:200-212 | the loop over the runs between separators yields the trimmed non-blank items |
| `CaseTable.ParseRows` | backend/internal/qmetry/import.go:86-155 | the import loop computes the import function the theorems are about |
| `CaseTable.NothingImported` | backend/internal/qmetry/import.go:86-99 | an empty file or one without a summary column imports nothing and says so; each unknown column gets its warning |
| `CaseTable.RowsForCase` | backend/internal/export/export.go:44-56 | one row per step, the first with the case columns; one row for a case without steps |
| `CaseTable.CaseRows` | backend/internal/export/export.go:36-58 | the export loop computes the export function the theorems are about |
| `CaseTable.SplitListOfJoin` | backend/internal/export/export.go:41-41 | splitting a printed list gives the list back |
| `CaseLayout.ListOfOne` | backend/internal/qmetry/import.go:199-212 | a list without comma or semicolon is its trimmed text, or empty |
| `CaseLayout.ListOfTwo` | backend/internal/qmetry/import.go:199-212 | a list cut at a comma or semicolon is its parts one after the other |
| `CaseLayout.FirstFolder` | backend/internal/qmetry/import.go:214-225 | of several folders the first counts |
| `CaseLayout.FolderPath` | backend/internal/qmetry/import.go:214-225 | a folder is what stands between white space and, inside that, slashes of either kind, with backslashes turned |
| `CaseLayout.ImportReads` | backend/internal/qmetry/import.go:86-155 | an import is a case per row with a summary, in order, with that row's cells and the steps of the rows down to the next summary |
| `CaseLayout.FirstFolderImported` | backend/internal/qmetry/import.go:214-225 | the case of a row whose folder cell lists several has the first |
| `CaseTable.CaseHeaderUnderstood` | backend/internal/export/export.go:26-30 | the importer maps every exported column and warns of none |
| `CaseTable.ImportOfExport` | backend/internal/export/export.go:32-58 | importing an export gives every case with its folder normalized, exact counts, no skip, no warning |
| `CaseTable.RoundTrip` | backend/internal/export/export.go:32-58 | well-formed cases with normal folders come back exactly |
| `CaseLayout.RoundTripIff` | backend/internal/export/export.go:32-58 | a list of cases comes back from its own export if and only if each is well formed with a normal folder |
| `CaseLayout.ImportsAreFinished` | backend/internal/qmetry/import.go:86-155 | whatever the table holds, imported cases have trimmed fields, a summary, clean labels, a clean path and numbered non-empty steps |
| `CaseLayout.FolderIsClean` | backend/internal/qmetry/import.go:216-225 | a folder path has no comma, no backslash and no outer slash |
| `CaseLayout.CleanPathStays` | backend/internal/qmetry/import.go:216-225 | importing such a path again keeps it if and only if it has no outer space |
| `CaseLayout.SpaceBehindSlash` | backend/internal/qmetry/import.go:216-225 | a cell whose path changes at the second import |
| `CaseLayout.ReimportChangesFoldersOnly` | backend/internal/qmetry/import.go:86-225 | exporting any import and importing it again changes at most folder paths, and nothing exactly when none has an outer space |
| `CaseLayout.RowsAccounted` | backend/internal/qmetry/import.go:119-155 | every non-blank row is a step, a case row without a step, or skipped; all counters agree with the cases |
| `CaseLayout.LayoutIndependence` | backend/internal/qmetry/import.go:102-188 | moving columns with their headers, and blank cells at row ends, change nothing when no field is claimed twice |
| `CaseLayout.BlankRowsIgnored` | backend/internal/qmetry/import.go:119-122 | blank rows anywhere change nothing |
| `Migration.Store.AddMissingColumn` | backend/internal/store/sqlite.go:448-480 | scans the columns and adds the missing one with its default in every row |
| `Migration.Store.RebuildIfForeignKey` | backend/internal/store/sqlite.go:393-442 | five statements in one transaction rebuild `test_runs` or change nothing |
| `Migration.Store.BackfillInstanceSource` | backend/internal/store/sqlite.go:360-388 | two updates classify every device without a source, once |
| `Migration.Store.Execute` | backend/internal/store/sqlite.go:266-317 | one statement has the effect the theorems are about |
| `Migration.Store.Migrate` | backend/internal/store/sqlite.go:71-348 | the statements run in order and the first failure ends the migration |
| `Migration.RebuildTransaction` | backend/internal/store/sqlite.go:405-442 | create, copy, drop, rename and reindex amount to one replacement that keeps every row |
| `Migration.DdlSucceedsIff` | backend/internal/store/sqlite.go:405-442 | when each of the five statements succeeds, that a failed one changes nothing, and that a rename takes the indexes along |
| `Migration.TwoUpdates` | backend/internal/store/sqlite.go:376-386 | the two updates in sequence give each row its class |
| `Migration.IdleStays` | backend/internal/store/sqlite.go:266-348 | a statement with nothing left to do keeps having nothing to do whatever later statement runs |
| `Migration.RestartConverges` | backend/internal/store/sqlite.go:71-348 | stop after any statement and run again: same database, same success or failure as without the stop |
| `Migration.CrashesConverge` | backend/internal/store/sqlite.go:71-348 | the same for any number of interrupted starts |
| `Migration.RestartConvergesAnyClock` | backend/internal/store/sqlite.go:327-347 | the same when each start reads another clock, up to the recorded times |
| `Migration.MigrateConverges` | backend/internal/store/sqlite.go:71-348 | the repository's own list of statements converges on every database without a misplaced index or without the old foreign key |
| `Migration.ConvergesIff` | backend/internal/store/sqlite.go:71-348 | on every database it can be run on, stopped anywhere and started again it ends as a single start would, if and only if no index of another table sits on `test_runs`, or that has no foreign key |
| `Migration.FailedConverges` | backend/internal/store/sqlite.go:71-348 | a migration that fails converges on every database |
| `Migration.MigrateSucceeds` | backend/internal/store/sqlite.go:71-348 | the migration succeeds on an empty database and on every older one whose tables have the columns that indexes and the rebuild use |
| `Migration.UpgradeClassifies` | backend/internal/store/sqlite.go:71-388 | upgrading such a database classifies every device it holds |
| `Migration.PlanIsPlanned` | backend/internal/store/sqlite.go:72-348 | that list is in the order the theorems ask for and respects the rebuild |
| `Migration.LaterStartsChangeNothing` | backend/internal/store/sqlite.go:318-323 | after a completed migration any rows may change and the next start changes nothing, so no chosen source is stamped over |
| `Migration.RowsSurvive` | backend/internal/store/sqlite.go:390-442 | no run loses or adds a row, and no cell changes but a blank source; a rebuild keeps its twelve columns |
| `Migration.RebuildInWords` | backend/internal/store/sqlite.go:390-442 | a rebuild fails, changing nothing, if and only if one is half done or one of the twelve named columns is missing; else it leaves those columns, every row with its cells, no foreign key, and the index |
| `Migration.BackfillFailsIff` | backend/internal/store/sqlite.go:360-388 | the backfill fails exactly without the version table or, before version 5, without the two columns it looks at |
| `Migration.MigratedSchema` | backend/internal/store/sqlite.go:266-347 | a migrated database has every column added since its tables were made, the five versions, and no old foreign key |
| `Migration.DevicesClassified` | backend/internal/store/sqlite.go:350-388 | a legacy device keeps its source or becomes runner exactly when its platform is a desktop, else cuttlefish |
| `Migration.FirstUpgradeSetsSource` | backend/internal/store/sqlite.go:350-388 | in words: a device without a source becomes "runner" if and only if its platform is stored and neither empty nor "android", else "cuttlefish"; one with a source keeps it |
| `Migration.MisplacedNeedsTwoStarts` | backend/internal/store/sqlite.go:393-442 | on every other database on which it succeeds, a second start still changes something |
| `Migration.MisplacedIndexNeedsTwoStarts` | backend/internal/store/sqlite.go:71-348 | a database on which the repository's migration succeeds and a second start still changes something |
| `TimeText.FieldsOrderInstants` | backend/internal/store/sqlite.go:968-970 | calendar fields order times exactly as elapsed seconds do |
| `TimeText.ValidIff` | backend/internal/store/sqlite.go:968-978 | which fields make a time: the civil calendar with its leap years, years 0000 to 9999 |
| `TimeText.DaysFollow` | backend/internal/store/sqlite.go:968-978 | days follow each other without a gap, 86400 seconds each |
| `TimeText.DaysByFormula` | backend/internal/store/sqlite.go:968-978 | the days before a year by the Gregorian formula |
| `TimeText.UnixEpoch` | backend/internal/store/sqlite.go:968-978 | the count reaches 62167219200 seconds at the start of 1970 |
| `TimeText.LessIsTotal` | backend/internal/store/cases.go:240-244 | of two different texts one comes first |
| `TimeText.TextOrderAcrossSeconds` | backend/internal/store/sqlite.go:968-970 | for years 0000 to 9999, text order is time order whenever whole seconds differ |
| `TimeText.TextOrderWithinSecond` | backend/internal/store/sqlite.go:968-970 | within a second text order is right if and only if the earlier printed fraction does not begin the later one |
| `TimeText.TextOrderOffBySecond` | backend/internal/store/cases.go:240-244 | a text comparison is wrong by less than a second |
| `TimeText.FractionSortsFirst` | backend/internal/store/sqlite.go:968-970 | half a second past sorts before the full second |
| `TimeText.DueByText` | backend/internal/store/cases.go:240-244 | a whole-second due time is never listed early, and exactly from the next second or on the dot |
| `TimeText.SessionExpiry` | backend/internal/store/auth.go:57-88 | accepted sessions are expired, and pruned ones alive, by less than a second |
| `TimeText.ParseFormat` | backend/internal/store/sqlite.go:968-978 | parsing undoes formatting |
| `TimeText.ParsedIsFormatted` | backend/internal/store/sqlite.go:968-978 | whatever parses is the text of a valid time but for the way its fraction is written |
| `TimeText.ZoneIff` | backend/internal/store/sqlite.go:968-978 | exactly what may stand for the fraction and the zone |
| `Scheduler.StartsAreSeparated` | backend/internal/scheduler/scheduler.go:52-81 | in every run in which no save puts a time that can repeat an occurrence, between two cron starts of a cycle lies the occurrence that follows the first, so missed ones collapse |
| `Scheduler.EditBreaksIff` | backend/internal/store/cases.go:185-202 | from every state such runs lead to, also in the middle of a tick, a save breaks that in some continuation without other changed times if and only if its time can be due before the occurrence that follows a start of the cycle |
| `Scheduler.SavedCasesAreHarmless` | backend/internal/api/cases.go:288-307 | saves that write back the time the row holds at that moment never break it |
| `Scheduler.FreshTimeIsHarmless` | backend/internal/api/cases.go:345-361 | nor does one with the next occurrence computed anew, while the schedule is the one its starts were made by |
| `Scheduler.StaleEditStartsTwice` | backend/internal/api/cases.go:288-307 | a run from empty tables in which saving a row read before a tick starts the cycle twice with no occurrence in between |
| `Scheduler.NoOverlapByCron` | backend/internal/store/cases.go:238-244 | in every run, a tick starts a cycle beside a running run of it if and only if a run of it started by hand since the listing is still running |
| `Scheduler.DeleteEndsItsRuns` | backend/internal/store/sqlite.go:233-244 | a deleted cycle takes its runs with it and touches nothing else |
| `Scheduler.StartByHandOverlaps` | backend/internal/scheduler/scheduler.go:59-80 | a run from empty tables in which that happens |
| `Scheduler.AfterSweepAllDueListed` | backend/internal/store/cases.go:381-422 | wherever a run was cut off, the first listing after the sweep holds exactly the enabled scheduled cycles whose time lies in an earlier second or is the clock's |
| `Scheduler.OverdueIsDue` | backend/internal/store/cases.go:240-244 | a due time a second past is due as text |
| `Scheduler.StrandedRunBlocks` | backend/internal/store/cases.go:384-387 | without the sweep, a run left running keeps its cycle off every list |
| `Scheduler.NoOccurrenceIsAlwaysDue` | backend/internal/scheduler/scheduler.go:60-70 | a run from empty tables in which a schedule without a next occurrence starts its cycle twice at one clock reading |
| `Scheduler.ResolveTarget` | backend/internal/scheduler/scheduler.go:83-101 | the first listed device of the platform that is up, or none if there is none |
| `Scheduler.SuitsIff` | backend/internal/scheduler/scheduler.go:88-97 | which device suits: its platform, Android if it names none, and running or online |
| `Scheduler.TickIsRun` | backend/internal/scheduler/scheduler.go:52-81 | an undisturbed tick is a run of the step relation |
| `Scheduler.Tables.ListDueCycles` | backend/internal/store/cases.go:238-258 | exactly the due cycles, each once |
| `Scheduler.Tables.Tick` | backend/internal/scheduler/scheduler.go:52-81 | a tick leaves the tables as those steps do: each schedule moved on before its start |
| `Scheduler.Tables.FailStrandedCycleRuns` | backend/internal/store/cases.go:391-422 | no cycle run stays running, and a case run stays running if and only if it was and its cycle run was not; nothing else changes, and the number of cycle runs is returned |
| `Ports.InstanceTable.CreateInstance` | backend/internal/store/sqlite.go:906-916 | the port is one more than the largest in the table, or 6520 in an empty one |
| `Ports.RegisterAndDelete` | backend/internal/store/desktop.go:33-46 | other devices come with port 0, and a deletion touches only its row |
| `Ports.FirstGroup` | backend/internal/orchestrator/service.go:569-571 | port 6520 is instance 1, group cvd_1 |
| `Ports.DistinctAlways` | backend/internal/store/sqlite.go:677-685 | non-zero ports are pairwise distinct in every run |
| `Ports.GroupsAreOwn` | backend/internal/orchestrator/service.go:569-583 | two instances share a group name if and only if they are the same |
| `Ports.PortsHighIff` | backend/internal/store/sqlite.go:896-916 | all ports of a run are at least 6520 if and only if each allocation sees an empty table or a Cuttlefish row |
| `Ports.DesktopFirst` | backend/internal/store/desktop.go:33-46 | a run in which a virtual device gets port 1 |
| `Lifecycle.FinishesOnce` | backend/internal/orchestrator/service.go:37-52 | in every run an operation row is finished at most once, not before its operation ends, and at the end if and only if the operation's context has not expired |
| `Lifecycle.NoMarkNoProgram` | backend/internal/orchestrator/service.go:140-160 | in every run an operation whose mark did not reach the row goes no further, and none that goes further is without one |
| `Lifecycle.ExpiredIsMute` | backend/internal/orchestrator/service.go:37-52 | once its context has expired an operation changes neither its operation row nor the device's |
| `Lifecycle.OperationsEnd` | backend/internal/orchestrator/service.go:140-502 | from any point of any run an operation under way has a next step while the service is up, and ends within its program's length and two steps |
| `Lifecycle.DeleteNeverStops` | backend/internal/orchestrator/service.go:468-487 | no delete ever issues its own stop command |
| `Lifecycle.DeleteWouldStop` | backend/internal/orchestrator/service.go:480-487 | the branch stops exactly the devices the record calls live, and a failed stop ends the delete in error |
| `Lifecycle.RightIffOwnRow` | backend/internal/orchestrator/service.go:140-267 | in every run, overlapping or not, an operation that ends is right about the row if and only if its context has not expired and the row is what it wrote last |
| `Lifecycle.LastWriterIsRight` | backend/internal/orchestrator/service.go:140-267 | in every run, if the operation that changed the row last has finished, the row is as it reported |
| `Lifecycle.OutcomeIsRow` | backend/internal/orchestrator/service.go:140-267 | without overlap, the operation that ends leaves the row running, stopped or gone after success and in error after failure, if and only if its context has not expired |
| `Lifecycle.HangingStopIsLost` | backend/internal/orchestrator/service.go:437-453 | a run in which a stop hangs until its deadline and leaves the device stopping and the operation row running, with nothing under way |
| `Lifecycle.AfterCrashAndReconcile` | backend/internal/orchestrator/service.go:114-138 | after a crash anywhere in any run and reconciliation the row is gone, running, stopped, in error, or provisioning because a deploy was killed or ran out of time |
| `Lifecycle.RowAfterReconcile` | backend/internal/orchestrator/service.go:114-138 | after a crash anywhere the row is running exactly if it was running or on its way up and is found up; stopped, error and provisioning stay; every other is in error |
| `Lifecycle.ProvisioningStays` | backend/internal/orchestrator/service.go:120-135 | a device left provisioning stays so in every run without a delete request |
| `Lifecycle.DeletableIff` | backend/internal/orchestrator/service.go:454-475 | a device with nothing under way can be got rid of without a restart if and only if it is not left deleting |
| `Lifecycle.DeployCrashLeavesProvisioning` | backend/internal/orchestrator/service.go:201-218 | a deploy request, two of its steps, a crash and a reconciliation lead there |
| `Lifecycle.OverlapBreaksOutcome` | backend/internal/orchestrator/service.go:415-453 | a run in which a stop reports success on a booting device |
| `Lifecycle.Device.RunStart` | backend/internal/orchestrator/service.go:162-195 | goes through steps of the model; in time, one finish: running if launch and boot succeed, else error, failed if the row is gone; late, no finish and the row as at the deadline |
| `Lifecycle.Device.RunDeploy` | backend/internal/orchestrator/service.go:220-267 | the same with the image fetched first |
| `Lifecycle.Device.RunStop` | backend/internal/orchestrator/service.go:437-453 | goes through steps of the model; in time, one finish: stopped, or error if stopping failed, failed if the row is gone; late, no finish and the row as it was |
| `Lifecycle.Device.RunDelete` | backend/internal/orchestrator/service.go:477-502 | goes through steps of the model without a stop; in time, one finish: the row gone, failed if it was gone before; late, no finish and the row as it was |
| `Lifecycle.Fleet.Reconcile` | backend/internal/orchestrator/service.go:114-138 | a row is running afterwards if and only if it was and is reachable or not checked, or was on its way up and is reachable in live mode; settled rows stay, all others are in error |
| `Install.OneInstallPerBuild` | runner/control.go:123-141 | in every run a runner process starts at most one install per build |
| `Install.RequestTakesHold` | runner/control.go:123-141 | in every run a request is accepted for any named build, starts one install of an unknown one, and changes nothing for any other |
| `Install.EndingTakesHold` | runner/control.go:164-177 | in every run the end of an install, which comes once, changes the status of its build only, to done or its error |
| `Install.RestartForgets` | runner/control.go:123-141 | a restarted runner knows no build |
| `Install.StatusMovesForward` | runner/control.go:142-157 | in every run of a process the status goes unknown, installing, then done or error for good |
| `Install.StatusTellsEnding` | runner/control.go:164-177 | the status of an ended install says how it ended, unless it failed with an empty message |
| `Install.EmptyMessageNeverEnds` | runner/control.go:148-157 | then it says installing for the rest of the process |
| `RemoteInstall.DoneCameFrom` | backend/internal/devicecontrol/service.go:656-678 | in every run, a poll told done asked about a build installed on that device, or the reply came from an earlier session and answered a poll of the same number for a build that was |
| `RemoteInstall.NilMeansInstalled` | backend/internal/devicecontrol/service.go:643-678 | if no reply outlives its session, a caller that returned without an error asked for a build whose installer had returned without one on that device |
| `RemoteInstall.StatusWords` | runner/control.go:142-157 | the words unknown, installing, done and error, each read back by the appliance as it was meant |
| `RemoteInstall.CommandWords` | runner/control.go:123-157 | what the runner answers to the two commands, and that no other answer reads as done |
| `RemoteInstall.OtherCommands` | runner/control.go:60-122 | any other command may be answered with anything that does not read as done |
| `RemoteInstall.KnownWasRequested` | runner/control.go:123-141 | in every run a runner knows a build only because a request to install it by name was handled on a stream of that device |
| `RemoteInstall.NilWithoutInstall` | backend/internal/devicecontrol/service.go:516-528 | a run in which it returns without an error for a build whose installer is still running |
| `Install.Controller.InstallApp` | runner/control.go:123-141 | an install goes off exactly for a build not asked for before |
| `Install.Controller.InstallStatus` | runner/control.go:142-157 | the status of the recorded progress |
| `Install.Controller.DoInstall` | runner/control.go:164-177 | the end of an install is recorded for its build and no other |
| `Install.InstallDesktopBuild` | backend/internal/devicecontrol/service.go:656-678 | no error if and only if a done status comes before the deadline and before any failure |
| `Passwords.XorInto` | backend/internal/auth/service.go:238-240 | the buffer becomes the bytewise xor, in place |
| `Passwords.DeriveBlock` | backend/internal/auth/service.go:225-241 | one block is U_1 xor ... xor U_c |
| `Passwords.DeriveKey` | backend/internal/auth/service.go:218-245 | the loop yields the first keyLen bytes of T_1, T_2, ... of section 5.2 of RFC 8018 |
| `Passwords.BlockRecurrence` | backend/internal/auth/service.go:225-241 | the recurrence of section 5.2 of RFC 8018, the block number in four octets, byte by byte |
| `Passwords.KeyByte` | backend/internal/auth/service.go:218-245 | the key byte at b * size + k is byte k of block b + 1, an iteration count below one counting as one |
| `Passwords.ShorterKeyIsPrefix` | backend/internal/auth/service.go:218-245 | a shorter key begins a longer one |
| `Passwords.Base64ReadBack` | backend/internal/auth/service.go:145-145 | unpadded base64 decodes to what was encoded and has no dollar sign |
| `Passwords.AlphabetInOrder` | backend/internal/auth/service.go:145-145 | the alphabet of table 1 of RFC 4648 |
| `Passwords.SextetsWeigh` | backend/internal/auth/service.go:145-145 | sextets are the bits of the bytes, most significant first |
| `Passwords.DecodeFails` | backend/internal/auth/service.go:157-164 | decoding fails exactly on a foreign character or one character too many |
| `Passwords.ScanReads` | backend/internal/auth/service.go:153-156 | the iteration count is the signed 64-bit number a text begins with |
| `Passwords.StoredForm` | backend/internal/auth/service.go:139-146 | 210000 iterations, the salt, and a key of 32 bytes |
| `Passwords.TakenApartIff` | backend/internal/auth/service.go:148-164 | exactly the texts of four parts, the scheme, a number and two base64 texts, can be taken apart |
| `Passwords.TakeApartStored` | backend/internal/auth/service.go:148-163 | the stored form splits into its scheme, count, salt and key |
| `Passwords.AcceptedIffSameKey` | backend/internal/auth/service.go:139-167 | a password is accepted against a stored one if and only if both derive the same key; its own always is |
| `RateLimiter.FilterInPlace` | backend/internal/api/server.go:1377-1384 | the kept entries, in order, at the front of the array being read; no unread entry is overwritten |
| `RateLimiter.Limiter.Allow` | backend/internal/api/server.go:1373-1392 | the key's list is pruned and extended, other keys are untouched, allowed exactly below the limit |
| `RateLimiter.ListIsWindow` | backend/internal/api/server.go:1373-1392 | for every call sequence the kept list is the history of allowed attempts restricted to the window |
| `RateLimiter.AllowedIffBelowLimit` | backend/internal/api/server.go:1386-1391 | allowed if and only if fewer than ten allowed attempts lie in the last five minutes |
| `RateLimiter.NoWindowOverLimit` | backend/internal/api/server.go:1373-1392 | no half-open five minutes, wherever they begin, hold more than ten |
| `SpecDoc.TruncateAtRune` | backend/internal/specdoc/specdoc.go:141-149 | a text that fits is kept whole; else the cut is the last start of a character at or below the limit |
| `SpecDoc.EncodedForm` | backend/internal/specdoc/specdoc.go:141-149 | the forms of section 3 of RFC 3629, each the character's number in its range |
| `SpecDoc.CutIsClean` | backend/internal/specdoc/specdoc.go:140-151 | the cut falls between characters and gives up at most three bytes |
| `SpecDoc.CollapseBlankLines` | backend/internal/specdoc/specdoc.go:155-171 | the loop keeps the lines the squeezing function keeps |
| `SpecDoc.SqueezedTells` | backend/internal/specdoc/specdoc.go:155-171 | kept are all lines but blank ones behind a blank one, each without the spaces and tabs at its end and otherwise as it was |
| `SpecDoc.CleanKeepsReadable` | backend/internal/specdoc/specdoc.go:104-112 | no two blank lines meet, and every readable line is kept, trimmed, in order |
| `SpecDoc.NormalizedIsUnix` | backend/internal/specdoc/specdoc.go:108-109 | the two replacements turn every line end into one line feed |
| `SpecDoc.HasReadableText` | backend/internal/specdoc/specdoc.go:127-138 | true exactly with twenty letters or digits, though the scan stops early |
| `SpecDoc.CountIsNumber` | backend/internal/specdoc/specdoc.go:127-138 | what is counted is the number of places with a letter or digit |
| `SpecDoc.Finish` | backend/internal/specdoc/specdoc.go:104-123 | rejected exactly without enough readable text; else the first characters of the cleaned text, all or as many as fit |
| `SpecDoc.AcceptedText` | backend/internal/specdoc/specdoc.go:104-171 | the result is valid UTF-8 within the cap, its whole lines are readable lines of the document in order, and two blank lines meet if and only if nothing but white space lies between two line ends and the cut |
| `SpecDoc.CutTextIsClean` | backend/internal/specdoc/specdoc.go:155-171 | the text of the next row reaches the cut unchanged |
| `SpecDoc.BlankLinesMeetAtCut` | backend/internal/specdoc/specdoc.go:114-119 | a text whose cut leaves two blank lines |

## Left out

- HTTP, routing, cookies, server-sent-event framing, TLS, certificates, secret encryption: plumbing or library code. Frames and replies are values; hash and pseudorandom function are parameters.
- Call numbers in the tunnel are unbounded; the wrap of a 64-bit counter is not modelled. A runner that invents replies to commands it never received is not modelled either, nor is the detail text of a failed install.
- Foreign programs (adb, cvd, installers), the agent and the vision model: their outcomes are nondeterministic.
- Failing store writes: statements succeed, except in the migration, where a row is missing, and where an operation's context has expired.
- The clock is a parameter that does not run backwards. Cron parsing is not modelled: a next occurrence is on a whole second and strictly later (`NoOccurrenceIsAlwaysDue` shows what the zero time does).
- CSV and XLSX bytes, JUnit XML, durations, pass rates and the sorting of the insights page: the model starts at string cells and ends at counts.
- Migration.RowsSurvive: assumes that copied columns already satisfy the NOT NULL constraints of the rebuilt table; column types, SQLite's case-insensitive names and NULL as a value of its own are not modelled.
- Passwords.TakeApartStored: leading blanks before the iteration count of a stored password, which the scanner would skip, are not modelled.
- TimeText.ParseFormat: only texts in UTC; zone offsets and years beyond 9999 are not modelled.
- SpecDoc.Finish: letters and digits are a parameter; the text starts as valid Unicode, so repair of invalid bytes is not modelled.
- Attribution.StepLandsInItsRun: screenshots and their file numbers are not modelled.
- Lifecycle models one device at a time and reads and writes its row in one step per store call; image downloads, console discovery and the clearing of stale groups have no state.
- Retention, webhooks, users and permissions, device discovery, key chords, reconnect backoff: easy or plain plumbing.
