# Watchcat recovery, verified

Watchcat resumes interrupted AI coding sessions by itself. This project models the parts of it
that must never send too much, too early or after revocation, and proves what they keep over every
run:

- `Protocol.dfy`: the reconciliation loop, manual retries, control requests and shutdown as tasks
  with program counters and locks. Between any two steps any other task may run.
- `Recovery.dfy`, `RuntimeState.dfy`, `Engine.dfy`, `Episode.dfy`, `Backoff.dfy`: attempt budgets, write-ahead
  saves, handled marks, pending recoveries and backoff, first as a machine of steps in which any save
  may fail and the service may crash anywhere, then as the engine's own methods, proved to take
  exactly those steps. `Repeat.dfy` says when the engine resumes a failure again, and `Service.dfy` puts
  the engine's runs and the protocol together.
- `Watchlist.dfy`, `Models.dfy`: membership, discovery and expiry of watched sessions.
- `Config.dfy`, `Conditions.dfy`: policies, their validation and their resolution.
- `RetryRegistry.dfy`, `ControlState.dfy`: the durable registry of manual retries and the control
  revision.
- `Lines.dfy`, `Transcript.dfy`, `DialogLog.dfy`: files read and written line by line.
- `Paging.dfy`: discovery through provider cursors.
- `Prelude.dfy`: options, instants, integer bounds.

Where the source changes an object in place, the model is a class or a method with loops whose
contract equates the new state with a function of the old one; the properties are lemmas about that
function and about runs of it.

Times are nanoseconds (`int`). 64-bit revisions, saturating 64-bit delays, the 32-bit exponent and the 32-bit observation
counter are modelled with their bounds. Provider answers, the result of each file write, the clock
and fresh identifiers are inputs of the steps. JSON text is a parameter: a decoder for transcript
lines, an encoder and a decoder that undo each other for log records and cursors.

What the theorems assume, because the code does: the time passed to the engine does not decrease;
the attempt window is at most the 30 days that `prune` keeps (`Recovery.AttemptBudget`); revisions
stay below the largest 64-bit number (a bump at that number is not a step of `Protocol`, and
`ControlState.RevisionsStrictlyIncrease` says exactly what happens there); durations fit the time
type; an atomic file replacement happens wholly or not at all; nobody else edits the watchlist, the
state and the registry files; and a provider call returns.

Two sentences of the repository's documentation and comments are stronger than its code:

- README.md:249 promises that each failed turn is handled at most once. A crash after the provider's
  answer and before the next save loses the mark (src/engine.rs:300-314), and the engine resumes the
  turn again, under its default settings within ten seconds: `Repeats.CrashCanRepeatAResume`. Wherever
  it crashes, the restarted loop can resume a failure, before its mark would be pruned, if and only if
  the file held no blocking mark of it and it is set up to be retried (provider loaded, no dry run, a
  policy that retries at least once, a first delay of at most the 30 days that sightings are kept):
  `Repeats.CrashRepeatsExactly`. For the automatic loop the promise holds as `Recovery.AtMostOnce` and
  `Recovery.CleanCrashesLoseNothing` say. A manual retry breaks it without any crash: `retry_now` does
  not consult the marks (src/engine.rs:635-691) and resumes a turn that was resumed before.
- src/os_permissions/events.rs:39 says that a record being appended is read on the next call.
  Reading fails instead if and only if the half-written record stops inside a character:
  `DialogLog.HalfARecordStopsReaders`, with a run for every such record in
  `DialogLog.FirstRecordCanStopReaders`.

Three more findings:

- When the reread after a watchlist edit fails (src/daemon.rs:574, src/daemon.rs:584), the permit keeps
  the old keys under the new revision until the next update: `Protocol.PermitCanBeStale`. They are
  the watchlist's keys all the same if and only if the edit changed no membership, which can be told
  before it: `Protocol.FailedRereadIsExact`, `Protocol.FailedRereadIsForeseen`.
- A half-written character makes a Claude session uncertain although a reading of the finished file
  is certain: `Transcripts.HalfACharacterLeavesDoubt`, with the exact condition in
  `Transcripts.IncrementalEqualsFull`.
- The engine's expiry filter can drop a target that the commit keeps when discovery lists a key twice:
  `Watchlist.FilterIsStricterOnDuplicates`; exactly when is `Watchlist.FilterDisagreesExactly`.

## Model

| member | source | states |
|---|---|---|
| Protocol.StepKeepsInv | src/daemon.rs:961-1010 | any step of any task keeps the invariant: guards are held by one task, jobs at the published revision describe the current settings and members, a job in flight is for a member under the policies in force, permit generation is the published revision |
| Protocol.RunKeepsInv | src/daemon.rs:961-1326 | so does any interleaving of steps |
| Protocol.DaemonHolderIsAlone | src/daemon.rs:333-342 | while a task holds the daemon lock no other one is between its revision bump and its permit update |
| Protocol.LocalMoveKeeps | src/engine.rs:287-303 | a step that touches no shared state keeps the invariant, whatever the others do |
| Protocol.BumpKeeps | src/daemon.rs:337-342 | a revision bump outdates every captured job before the permit changes |
| Protocol.PublishKeeps | src/daemon.rs:333-335 | a permit update makes the permit current again |
| Protocol.ControlWriteKeeps | src/daemon.rs:557-668 | a removal or a policy edit, holding the send boundary, changes nothing under a send in flight; the other edits need no boundary |
| Protocol.LoopWriteKeeps | src/daemon.rs:489-509 | a hot reload finds no automatic send in flight |
| Protocol.CommitWriteKeeps | src/daemon.rs:452-487 | a scan's commit keeps every key that a manual retry is sending to |
| Protocol.CheckIsLocal | src/engine.rs:65-68 | a positive check inside the boundary vouches for current membership and policy |
| Protocol.RemovalRevokes | src/daemon.rs:577-586 | when a removal is acknowledged, its key is out of the permit and excluded, and no send to it is in flight |
| Protocol.StepKeepsRevoked | src/engine.rs:287-303 | no step of any task but a manual addition of the key undoes that |
| Protocol.RemovalIsFinal | src/daemon.rs:577-586 | over any continuation no resume for a removed key is in progress or starts until the key is added again |
| Protocol.AcknowledgedRemovalIsFinal | src/daemon.rs:1393-1398 | the same from the start of the service: for every removal acknowledged in any run |
| Protocol.SendsAreAuthorized | src/engine.rs:55-68 | in every run a checked send is for a current member until it returns; an automatic one runs under the policies in force throughout; at the check both have the settings in force |
| Protocol.SendsAreAlone | src/engine.rs:287-287 | two sends never overlap, and none overlaps a removal or a policy edit past its boundary |
| Protocol.PermitIsCurrentAtRelease | src/daemon.rs:358-369 | whenever the daemon lock is free before shutdown, the permit carries the current revision; its keys are the watchlist's iff no edit since its last update changed the membership and failed to reread it |
| Protocol.FailedRereadIsExact | src/daemon.rs:565-586 | in every run, an edit whose reread fails leaves the permit with the watchlist's keys iff it changed no membership: the added key was there, or the removed one was not |
| Protocol.FailedRereadIsForeseen | src/daemon.rs:565-586 | before the edit is written the permit holds the watchlist's keys, so that condition can be checked then |
| Protocol.PermitCanBeStale | src/daemon.rs:557-576 | a run from the start after which the daemon lock is free and the permit, at the current revision, lacks a key of the watchlist |
| Protocol.OneMutationPerExpectedRevision | src/daemon.rs:690-700 | over any run at most one mutation that expected a given revision got past its bump |
| Protocol.OneMutationAcrossRestarts | src/state.rs:391-426 | nor do two over any sequence of lives of the service, with restarts and crashes between them |
| Protocol.CommitFollowsItsPlan | src/daemon.rs:452-461 | a scan edits the watchlist only when revision, settings and list are those of its plan, and every target it was allowed to send to stays a member |
| Protocol.AcquisitionOrder | src/daemon.rs:1163-1326 | every task takes its locks in one global order: retry tasks, engine, send boundary, daemon, registry |
| Protocol.CanMove | src/daemon.rs:961-1010 | a task that waits for no lock has an enabled step |
| Protocol.Obstacle | src/daemon.rs:1427-1443 | the holder of an awaited lock waits further up the order, or not at all |
| Protocol.Straggler | src/daemon.rs:1427-1443 | the operation tasks that shutdown waits for do not need the lock it holds |
| Protocol.NoDeadlock | src/daemon.rs:961-1443 | while any task has work left, some task can step |
| Recovery.StepKeepsBudget | src/state.rs:245-270 | recorded attempts account for every resume that still matters, on disk as in memory |
| Recovery.AttemptBudget | src/engine.rs:193-211 | over every run with crashes and failing saves: automatic and manual resumes of a target in any closed window, since its attempts were last cleared, are at most the largest attempt limit |
| Recovery.ResumesAreSpaced | src/engine.rs:213-216 | an automatic resume comes at least min(initial * 2^n, maximum) seconds after the one before it, n being the resumes so far |
| Recovery.StepKeepsMark | src/state.rs:225-239 | a blocking mark is not downgraded, and outlives its resume until it is pruned or lost to a crash |
| Recovery.AtMostOnce | src/engine.rs:169-190 | after a resume that may have started a turn, manual or automatic, every later automatic resume of that failure comes after the 30-day prune, unless a crash of the run found the file without its mark |
| Recovery.LostIsExact | src/state.rs:194-223 | marks are lost at exactly those crashes that find the file without a mark as recent as the failure's latest effective resume |
| Recovery.MarkedIsNotResumed | src/engine.rs:169-176 | without a crash, a failure with a blocking mark is not resumed automatically until the mark is old enough to be pruned |
| Recovery.CleanCrashesLoseNothing | src/engine.rs:300-370 | a run whose crashes find every blocking mark in the file, and no effective answer unmarked, loses none; unsaved skips, attempts and outcomes do not matter |
| Repeats.UnmarkedIsResumed | src/engine.rs:134-364 | a failure that is set up to be retried and has no blocking mark is resumed in two polls of the engine |
| Repeats.ServiceLeavesAlone | src/engine.rs:169-216 | over every service run without a crash, a failure that is not set up to be retried is never resumed automatically: its provider is not loaded, or it is a dry run, or the policy skips or allows no attempt, or its first delay outlives the memory of its first sighting |
| Repeats.LoopResumesExactly | src/engine.rs:134-364 | between activities, without a crash, before a mark is pruned: the engine can still resume a failure iff it has no blocking mark and is set up to be retried |
| Repeats.CrashRepeatsExactly | src/engine.rs:300-370 | wherever a service run crashes, the restarted engine can resume a failure before the prune iff the file held no blocking mark of it and it is set up to be retried |
| Repeats.CrashRepeats | src/engine.rs:300-314 | every failure that is set up to be retried twice within the window has a service run with a crash in which the engine resumes it twice, the second delay apart |
| Repeats.CrashCanRepeatAResume | src/engine.rs:300-314 | under the default settings such a run resumes one failed turn twice within ten seconds |
| Recovery.RecoveriesAreConserved | src/state.rs:272-340 | over every run, recoveries found at the last start or begun since are those pending, completed, failed, abandoned or overwritten; each is stored under its own failure key |
| Recovery.PassDecidesEach | src/engine.rs:379-452 | one pass gives each pending recovery the fate of its own observation and leaves the others |
| Recovery.PassRecords | src/state.rs:312-325 | a pass records exactly the outcomes of the recoveries it finished |
| Recovery.PassIgnoresOrder | src/engine.rs:384-452 | neither what stays pending nor which outcomes are recorded depends on the map's order |
| Recovery.ObservationIsBounded | src/engine.rs:454-493 | after a pass a recovery whose provider is loaded is younger than 7 days, and an unwatched, unobservable one is under a day or under 20 failures |
| RuntimeStates.RuntimeState.Load | src/state.rs:194-219 | the running copy is what the file holds |
| RuntimeStates.RuntimeState.Save | src/state.rs:221-223 | the file becomes the running copy, or stays |
| RuntimeStates.RuntimeState.MarkHandled | src/state.rs:231-239 | replaces one failure's mark |
| RuntimeStates.RuntimeState.FirstSeen | src/state.rs:241-243 | the first instant a failure was seen is remembered |
| RuntimeStates.RuntimeState.RecentAttempts | src/state.rs:245-255 | drops the attempts before the window and counts the rest |
| RuntimeStates.RuntimeState.RecordAttempt | src/state.rs:257-259 | one more attempt, for this target alone |
| RuntimeStates.RuntimeState.ClearAttempts | src/state.rs:268-270 | forgets the attempts of one target |
| RuntimeStates.RuntimeState.BeginRecovery | src/state.rs:272-293 | a pending recovery under its failure key |
| RuntimeStates.RuntimeState.HasPending | src/state.rs:306-310 | whether any pending recovery is for the target |
| RuntimeStates.RuntimeState.FinishRecovery | src/state.rs:312-325 | moves one recovery from pending to outcomes |
| RuntimeStates.RuntimeState.RecordObservationFailure | src/state.rs:327-336 | counts a failed observation, saturating |
| RuntimeStates.RuntimeState.AbandonRecovery | src/state.rs:338-340 | drops one pending recovery without an outcome |
| RuntimeStates.RuntimeState.Prune | src/state.rs:365-379 | keeps marks, sightings, attempts and outcomes of the last 30 days, and the newest 10,000 outcomes |
| RuntimeStates.RuntimeState.MetricsSince | src/state.rs:342-363 | counts outcomes since an instant; the percentage is the rounded-down share of automatic successes, 100 when there are none |
| Backoff.SaturatingPow2Exact | src/engine.rs:769-782 | saturating doubling is the power of two capped at 64 bits |
| Backoff.ExponentialIsExact | src/engine.rs:769-782 | the saturating computation is min(initial * 2^attempts, maximum) for all inputs |
| Backoff.DelayIsMonotone | src/engine.rs:769-782 | more attempts never shorten the delay |
| Backoff.FirstDelayIsLeast | src/engine.rs:769-782 | whatever the policy, no later delay is shorter than the first |
| Backoff.DelayBounds | src/engine.rs:769-782 | under a sound policy the delay is at least the initial delay and what the provider asked for, and at most the larger of maximum and that |
| Engine.SendIsLegal | src/engine.rs:298-364 | recording, saving, resuming and settling is a run of the machine that resumes once, or not at all when the first save fails |
| Engine.TargetIsLegal | src/engine.rs:138-364 | whatever the surroundings answer, one target takes only enabled steps and is resumed at most once |
| Engine.LoopIsLegal | src/engine.rs:138-369 | visiting all targets is a run with at most one resume each |
| Engine.ObserveIsLegal | src/engine.rs:379-452 | the observation steps carry out one pass over the pending recoveries |
| Engine.PollIsRun | src/engine.rs:129-377 | a whole poll is a run of the recovery machine |
| Engine.ManualIsRun | src/engine.rs:635-750 | so is a manual retry, and it resumes at most once |
| Engine.EventsTellOfEnds | src/engine.rs:424-478 | an observation pass tells as many events as recoveries it ends |
| Episodes.ClearsOnlyHealthy | src/engine.rs:151-157 | in every episode attempts are cleared only for a target whose latest turn was healthy, and nothing is pending for it at that moment |
| Episodes.ResumesOnlyWhenRechecked | src/engine.rs:254-300 | in every episode a resume is of a plan for which every permit check passed and the policy retries, with its attempt in the file; for the loop also an unchanged failed turn on a second look and no blocking mark |
| Episodes.ServiceRestsOnAnswers | src/engine.rs:129-377 | over every service run with crashes anywhere, that holds of each clearing and each resume |
| Episodes.ServiceIsRun | src/daemon.rs:961-1326 | polls and manual retries, cut off by crashes at any step, are one run of the machine |
| Episodes.ConfiguredFits | src/config.rs:202-269 | under valid settings the engine's surroundings resolve every condition string within the largest attempt limit of the registered ones, and the attempt window is positive |
| Episodes.ServiceStaysInBudget | src/engine.rs:193-211 | with such surroundings no target is resumed, by polls and manual retries together, more often in one attempt window since its last clear than that limit, with failing saves and crashes anywhere |
| Service.PermissionIsInForce | src/engine.rs:287-300 | a permission given inside the boundary of a protocol run means a watched target and the settings in force |
| Service.PlannedPolicy | src/engine.rs:169-169 | an engine configured with some settings plans with the policy these settings give the failure's condition |
| Service.ResumesAreAuthorizedAndInBudget | src/engine.rs:287-303 | over every service run of an engine configured with a task's settings, whose permit answers come from the protocol: each resume is for a target watched, and under the policy that the settings in force give its condition, when it was allowed; and with it the target's resumes in any attempt window are within the limit |
| Engine.WatchEngine.constructor | src/engine.rs:103-122 | the engine starts with its runtime state and the file it was read from |
| Engine.WatchEngine.Transmit | src/engine.rs:298-364 | record, save, resume, settle and save change memory and file exactly as the send steps do |
| Engine.WatchEngine.Visit | src/engine.rs:138-364 | one target: its steps, its event and whether the poll goes on are those of the target's turn |
| Engine.WatchEngine.Retry | src/engine.rs:192-364 | a failed turn under a retry policy takes the steps and gives the event of the retry turn |
| Engine.WatchEngine.Confirm | src/engine.rs:235-364 | so does the part from the dry run on |
| Engine.WatchEngine.ReconcilePending | src/engine.rs:379-452 | the observation loop takes the steps, and tells the events, of one pass over the recoveries pending when it began |
| Engine.WatchEngine.ObserveOne | src/engine.rs:384-478 | one observation finishes, abandons, counts or leaves its recovery, and tells of the end |
| Engine.WatchEngine.RunOnceAuthorized | src/engine.rs:129-377 | a poll leaves the state, the file, the events (of recoveries, then of targets) and the error that the poll's steps give |
| Engine.WatchEngine.VisitAll | src/engine.rs:138-369 | the loop over targets, ended early by an error |
| Engine.WatchEngine.RetryNow | src/engine.rs:635-750 | an unwatched session is refused and nothing changes; a watched one takes the steps of a manual retry |
| Engine.WatchEngine.RetryTarget | src/engine.rs:651-750 | steps, event and receipt of a manual retry |
| Watchlist.AddMembership | src/state.rs:58-80 | adding makes exactly that key a member, clears its exclusion and keeps keys unique and disjoint from exclusions |
| Watchlist.RemoveMembership | src/state.rs:82-89 | removing takes exactly that key away and excludes it |
| Watchlist.AbsorbAllSpec | src/state.rs:102-128 | the loop over sessions merges the latest activity and title into each member and appends each fresh key that is not excluded once |
| Watchlist.ReconcileMembership | src/state.rs:92-137 | a key is kept iff it was a member or has fresh activity and is not excluded, and it is protected or its merged activity reaches the cutoff |
| Watchlist.ReconcileActivity | src/state.rs:112-126 | a kept key's activity is the maximum of what was known and what was observed |
| Watchlist.ReconcileKeepsValid | src/state.rs:92-137 | keys stay unique and disjoint from the exclusions |
| Watchlist.ReconcileIgnoresOrder | src/state.rs:92-137 | membership and activity do not depend on the order of the sessions |
| Watchlist.ReconcileIsIdempotent | src/state.rs:92-137 | an identical second pass changes nothing |
| Watchlist.FilterAgreesWithCommit | src/daemon.rs:426-443 | every target the engine may send to in a scan is kept by that scan's commit, and exactly those when discovery listed each key once |
| Watchlist.FilterDisagreesExactly | src/daemon.rs:426-443 | for any listing, filter and commit disagree about a member iff it is unprotected, its latest listed activity reaches the cutoff, the last listed does not, its recorded activity does not, and a manual addition is not recent |
| Watchlist.HiddenNeedsADuplicate | src/daemon.rs:426-443 | that takes two listings of the key, one at or after the cutoff and one before it |
| Watchlist.FilterIsStricterOnDuplicates | src/daemon.rs:426-443 | a listing with a key twice for which the filter drops a target that the commit keeps |
| Watchlist.AbsorbSessions | src/state.rs:102-128 | the loop with its key-to-position index computes the absorbed list; the index always agrees with the list |
| Watchlist.RetainCurrent | src/state.rs:129-131 | expiry keeps the protected and the current, in order |
| Watchlist.Store.Add | src/state.rs:58-80 | the document after an addition, whether it is new, and no change when the write fails |
| Watchlist.Store.Remove | src/state.rs:82-89 | the document after a removal, whether the key was there, and no change when the write fails |
| Watchlist.Store.Reconcile | src/state.rs:92-137 | the document after a discovery pass, its targets, and no change when the write fails |
| Conditions.DefaultsAreWellFormed | src/conditions.rs:45-159 | every registered retry default has a backoff, 1 <= initial <= maximum and at least one attempt; every skip default has none |
| Config.ValidSettingsResolveSoundly | src/config.rs:202-269 | under valid settings every condition string resolves to a skip without backoff or to a retry with backoff, 1 <= initial <= maximum, at least one attempt and a non-empty prompt; an unregistered one is skipped |
| Config.DefaultSettingsAreValid | src/config.rs:158-200 | the built-in settings pass validation |
| Config.LargestLimitCovers | src/config.rs:202-269 | no condition string resolves to more attempts than the registered ones do |
| Config.EditsKeepPoliciesSound | src/daemon.rs:590-643 | any sequence of policy edits, resets, lifecycle edits and hot reloads, rejected and failed ones included, leaves valid settings under which all of that holds |
| Config.PolicyEditsAreLocal | src/daemon.rs:590-643 | editing or resetting one condition does not change how another resolves |
| RetryRegistry.StepKeepsValid | src/daemon.rs:145-281 | every call keeps request keys unique, at most one pending operation a session, at most 32 pending and at most 256 in all |
| RetryRegistry.RunKeepsValid | src/daemon.rs:98-282 | so does every run, with failed saves, withdrawals and restarts |
| RetryRegistry.PendingIsNeverEvicted | src/daemon.rs:187-197 | a pending operation stays, under its own request, until it finishes, is withdrawn or the service restarts |
| RetryRegistry.RepeatFindsTheOperation | src/daemon.rs:153-164 | repeating a request key finds the operation it started and starts nothing |
| RetryRegistry.LeavesOnlySo | src/daemon.rs:187-197 | an operation leaves only by withdrawal, or as the oldest resolved one of a full registry that takes in another |
| RetryRegistry.RepeatStartsIffGone | src/daemon.rs:145-215 | over every run, repeating a request starts a second operation iff the first has left the registry and the session may start one; until then the first answers |
| RetryRegistry.OnePendingPerSession | src/daemon.rs:165-176 | while an operation is pending no request for its session starts another |
| RetryRegistry.RestartedKeepsValid | src/daemon.rs:99-132 | after a restart nothing is pending and the registry is still sound |
| RetryRegistry.RestartIsExact | src/daemon.rs:110-124 | a restart turns exactly the pending operations into unknown ones |
| RetryRegistry.FullHasOldest | src/daemon.rs:177-197 | a full registry always has a resolved operation to give up |
| RetryRegistry.Load | src/daemon.rs:99-132 | a start over any list of operations leaves none pending in memory and file, keeps a sound registry sound, and gives none when the save fails |
| RetryRegistry.Registry.Repeated | src/daemon.rs:145-185 | a request that starts nothing gets the operation it repeats, or a refusal |
| RetryRegistry.Registry.Insert | src/daemon.rs:187-209 | a full registry gives up its oldest resolved operation for the new one |
| RetryRegistry.Registry.Accept | src/daemon.rs:145-215 | the reply and the new registry; a failed save leaves nothing behind; memory equals file |
| RetryRegistry.Registry.FindRequest | src/daemon.rs:217-234 | the operation of a request key, a conflict when it is another session's, or none |
| RetryRegistry.Registry.SetRunning | src/daemon.rs:236-247 | marks any one operation running, or changes nothing when the save fails; memory equals file; a pending one keeps the registry sound |
| RetryRegistry.Registry.Finish | src/daemon.rs:249-281 | resolves one operation, or changes nothing when the save fails |
| RetryRegistry.Registry.Withdraw | src/daemon.rs:1246-1262 | an acceptance whose reply could not be delivered is taken back, unless the save fails |
| RetryRegistry.FindOldest | src/daemon.rs:188-193 | a resolved operation none is older than |
| ControlState.RevisionsStrictlyIncrease | src/state.rs:418-426 | over bumps, failed writes and restarts, revisions handed out strictly increase, exactly while below the largest 64-bit number |
| ControlState.FileHoldsTheLastIssued | src/state.rs:391-426 | the file is always at the last revision handed out; a failed bump changes nothing |
| ControlState.ControlStateStore.NextRevision | src/state.rs:418-426 | memory and file move together or not at all |
| ControlState.Load | src/state.rs:392-412 | a start hands out a revision past the file's, or fails and leaves the file |
| Lines.SplitAfter | src/providers/claude.rs:221-230 | reading on after some complete lines finds what a reading from the start finds after them |
| Lines.SplitCovers | src/os_permissions/events.rs:64-76 | a file is its complete lines and one half-written tail |
| Lines.ReadLine | src/providers/claude.rs:225-226 | one line up to and with its newline, or the rest of the file |
| Transcripts.NoteAllMeaning | src/providers/claude.rs:231-253 | one fold gives the latest dated user or assistant record, the last title and the last verdict on certainty |
| Transcripts.Transcript.Refresh | src/providers/claude.rs:197-262 | the offset, time, identity and session after a poll, with read errors |
| Transcripts.Transcript.ReadLines | src/providers/claude.rs:221-254 | the loop reads the next good lines and stops at the end, at a half line, or with an error |
| Transcripts.AlwaysStands | src/providers/claude.rs:210-230 | however the file changes, as long as it can be noticed, the offset is on a line boundary and the activity is that of the lines before it |
| Transcripts.ActivityIsCurrent | src/providers/claude.rs:210-248 | after a poll that reads to the end, the activity is that of the file as it is now, also after truncation or replacement |
| Transcripts.IncrementalEqualsFull | src/providers/claude.rs:208-256 | however appended bytes are cut into polls, offset, activity and title equal one reading of the whole file, and the session is uncertain iff that reading is or a read error is still undecided |
| Transcripts.CleanReadingEqualsFull | src/providers/claude.rs:208-256 | without read errors all of it equals one reading of the whole file |
| Transcripts.HalfACharacterLeavesDoubt | src/providers/claude.rs:226-260 | two polls of a growing file after which the session is uncertain though the whole file reads as certain |
| DialogLog.ReadEntries | src/os_permissions/events.rs:25-54 | the newest wanted records up to the limit, in order; an error for a bad line or a tail that is not text |
| DialogLog.Log.AppendWith | src/os_permissions/events.rs:92-132 | file, count, repair flag and result after torn writes, repairs and compactions |
| DialogLog.Start | src/os_permissions/events.rs:64-86 | opening cuts the half record off and counts the rest |
| DialogLog.AfterLastNewline | src/os_permissions/events.rs:69-69 | the length of the complete lines |
| DialogLog.StepIsSound | src/os_permissions/events.rs:64-132 | every append, crash and start keeps the file a sequence of complete records that are the newest of the history |
| DialogLog.LogIsTheNewestHistory | src/os_permissions/events.rs:64-132 | over every run the complete records are a suffix of everything fully written, of length at least min(history, retention), and an open log that needs no repair has no half line and counts them exactly |
| DialogLog.SuccessIsBounded | src/os_permissions/events.rs:120-130 | a successful append leaves at most twice the retention, with its record the newest |
| DialogLog.RestartRecovers | src/os_permissions/events.rs:64-86 | a start that can cut the file opens the log and loses no complete record |
| DialogLog.ReaderSeesTheRecords | src/os_permissions/events.rs:25-54 | at any moment a reader gets exactly the newest wanted records, or fails iff a half record is not text |
| DialogLog.HalfARecordStopsReaders | src/os_permissions/events.rs:36-42 | in every run with a sound open log, while a record is half written readers fail iff the part written is not text |
| DialogLog.FirstRecordCanStopReaders | src/os_permissions/events.rs:36-42 | for every record with a cut inside a character, a run after which readers fail |
| Paging.SearchSessions | src/providers/codex.rs:124-210 | the page a search returns, after at most 5 provider requests |
| Paging.SearchIsAStretch | src/providers/codex.rs:124-210 | over a stable catalog a request returns the matches of one stretch, no more than asked for, goes forward, and hands out no cursor only at the end |
| Paging.CursorsStayWithTheirSearch | src/providers/codex.rs:132-140 | a cursor is refused by every other search |
| Paging.FollowingFindsEverything | src/providers/codex.rs:124-210 | following the cursors, with any page sizes, reaches the end and gives each match once, in order |
| Paging.RecentSessions | src/providers/mod.rs:69-95 | over any provider, after any number of rounds: the pages' sessions, a provider error or a repeated cursor, or still going on with as many different cursors |
| Paging.GoingOnUsesCursors | src/providers/mod.rs:88-92 | a scan goes on for at most as many rounds as the provider has cursors |
| Paging.CursorsAdvance | src/providers/mod.rs:89-91 | over a stable catalog no cursor comes back |
| Paging.RecentIsComplete | src/providers/mod.rs:69-95 | over a stable, dated, newest-first catalog discovery never fails and returns a prefix with every session at or after the cutoff |
| Paging.DiscoveryEnds | src/providers/mod.rs:69-95 | over a stable catalog it goes on for at most as many rounds as there are sessions |

## Left out

- Protocol.SendsAreAuthorized: for a manual retry the policies are those in force at the check only, because a hot reload does not wait for the send boundary (src/daemon.rs:489-509).
- Protocol.StepKeepsInv: the daemon's methods are steps on values, because other tasks run between their lock operations; updating `WatchcatDaemon`'s fields in place is not captured.
- Protocol.PermitIsCurrentAtRelease: says nothing after shutdown has revoked the permit, because later control steps set it running again (src/daemon.rs:333-335).
- Protocol.NoDeadlock: some task can step; that each task gets its turn depends on the scheduler.
- Recovery.AtMostOnce: says nothing about manual retries after a resume, because `retry_now` does not consult the marks (src/engine.rs:635-691).
- Recovery.AttemptBudget: the limits stay fixed over a run; a reload that raises them raises the budget.
- Repeats.LoopResumesExactly: the failure is the same each time it is reported; a provider that changes a turn's condition or requested wait between polls is not covered.
- Episodes.ServiceStaysInBudget: one set of settings and loaded providers for the whole run.
- Service.ResumesAreAuthorizedAndInBudget: the moments at which the permit answers inside the boundary are moments of protocol runs from one start; the other permit checks of an activity, which only stop it earlier, stay free.
- Transcripts.ActivityIsCurrent: title and certainty are not covered after truncation or replacement, because they are not reset (src/providers/claude.rs:216-220).
- Paging.RecentSessions: runs for a given number of rounds; over endlessly many different cursors the source's loop does not end.
- Paging.RecentIsComplete: an empty page before the end of the catalog ends a search (src/providers/codex.rs:169-174), so a stable catalog has none.
- The earlier, momentary locks of the retry request on registry and daemon before its acceptance, and the aborting of a resume in flight at shutdown, which the protocol counts as over.
- Dialog settings: the edit behaves as a lifecycle edit. Replacing settings and loading providers in a running engine, attention keys and unresolved targets.
- Event texts, prompts, notification broadcast, and the engine's event log (`EventLogStore`): the dialog log's problem without its repair.
- Codes and patterns that classify provider errors, and the recovery of a lost acknowledgement from transport errors: a resume result is one of started, unacknowledged and refused.
- JSON and TOML text, file permissions, process lock, sockets and request framing, peer credentials, the command line, service installation, desktop messages, and the macOS accessibility code.
