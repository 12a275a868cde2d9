# Dispatch protocols, verified

A Dafny model of a WhatsApp dispatch system made of two processes: a Core (scheduler, health monitor,
conversation engine, lead import, suppression list) and a session worker (one session per phone number, or
"chip"). They share database tables and queues, and almost everything worth knowing about them is a property
of concurrent protocols. The project models those protocols and proves what they keep over whole runs.

`dafny verify dfyconfig.toml` checks everything.

## How it is modelled

Each protocol is a state machine: a datatype for the state, a datatype of events, a step function, and runs as
sequences of events. An asynchronous function of the source is cut at its `await`s wherever interleaving
matters, and any number of its calls are in progress at once. Beside each machine stand classes whose methods
carry out the source's statements in place; their postconditions say that the fields end up as the machine's
step says. The theorems are then proved about the machine, by induction over runs.

| module | what it models |
|---|---|
| `AuthState` | the write coalescer and key store of one session's auth state |
| `HealthMonitor`, `HealthChain` | score and policy of a chip; many overlapping `ingestSignal` calls on their promise chains |
| `Fleet`, `Ramp` | every writer of chip status, the CONTROL queue and the worker's session map; ramp and daily reset |
| `Outreach`, `Phones` | lead rows, opt-out list, `dispatchOne` under overlapping ticks, inbound turns; spellings of a number |
| `Pacing`, `SendConfig`, `Draw` | daily cap and jitter over runs of ticks; the 32-bit hash behind the jitter; the weighted draws |
| `Inbound` | duplicate check, unique index, reply and link of concurrent inbound handlers |
| `LeadImport` | `import` of parsed rows |
| `Template`, `Humanize` | the placeholder lexer and the message splitter |
| `Prelude`, `Shared` | counting over sequences; the chip row and the shared constants |

Clocks, random draws, identifiers, the order of table rows and the success of foreign calls are parameters or
events. Scores and delays are reals. Database calls are atomic; so are `suppress`, `unsuppress`, the sweep, the
daily reset and every core write together with its enqueue (`Fleet`), and CONTROL commands are consumed one at a
time in order. `AuthState` takes serialisation not to throw and an update to suspend before it settles.
`Pacing` takes ticks not to overlap (the `running` flag) and a dispatch to fail, if at all, before its enqueue.

## Promises the code does not keep in full

Six properties that the design promises or takes for granted turned out to need a condition. The code is modelled
as it is, a run from the initial state shows how each protocol fails, and the condition is proved exact.

- **Opt-out is never violated** (docs/ESPEC_MOTOR_DISPARO.md:17, 349, 508-509). It is, in two ways. An import reads
  the list before its transaction and inserts on that reading (lead-import.service.ts:117-163), so a phone that opts
  out in between is written to: `Outreach.StaleImportReachesThePhone`. And while an inbound message is recognised
  under both spellings of a Brazilian number (conversation.service.ts:105-121), the list, the lead updates and the
  import know a phone only as written, so the other spelling's lead is still opened:
  `Outreach.OtherSpellingIsStillOpened`. For a number the promise holds over a run exactly when no step breaks it:
  `Outreach.OptOutHoldsExactly`, with the steps in `Outreach.KeptExactly`. For a phone as written the stale import is
  the only one: `Outreach.SpellingBreaksExactlyWhenStale`.
- **The kill switch wins** (docs/ESPEC_MOTOR_DISPARO.md:16). Boot recovery reads its list once and works it off
  with pauses (supervisor.ts:87-103), so a chip paused meanwhile gets a session back:
  `Fleet.RecoveryCanReviveAPausedChip`. So does pairing a chip on hold. The fleet is safe over a run exactly
  when neither happens: `Fleet.KillSwitchExactly`. And a manual pause does not last by itself: a signal that takes
  the chip's score into the cooldown band turns it into a cooldown, which the sweep ends
  (`Fleet.PauseEndsByItself`). Short of a manual START or a new registration, exactly those signals do:
  `Fleet.PauseHoldsExactly`.
- **One link per conversation.** The flag is read before the turn and written after its enqueue, and four
  handlers work at once: `Inbound.OverlappingTurnsSendTwoLinks`. The steps that make a second link possible are
  exactly the clashes of `Inbound.OneLinkExactly`; a redelivery of one message, which the unique index refuses, is
  none of them.
- **The daily cap.** The minimum jitter may be configured as 0 (env.validation.ts:58), and then one tick's stale
  reading lets a chip send past its cap: `Pacing.ZeroJitterBreaksTheCap`. A chip's cap holds exactly when the least
  delay of each of its flows outlasts a tick: `Pacing.CapHoldsExactly`.
- **RECOVERED is good news** (docs/ARQUITETURA_ANTIBAN_E_IA.md:416; baileys-session.ts:155 sends it whenever a
  connection opens). It never takes a point (`HealthMonitor.RecoveredHeals`), but a chip started by hand below 42
  points is cooled down, and stopped, by its own: `Fleet.RecoveredCanCoolDown`. The exact condition is in
  `Fleet.RecoveredNeverHurts`.
- **Splitting keeps the text.** A long text that begins with a sentence mark and has more than one sentence after it
  loses that mark. Exactly those do: `Humanize.SplitLosesNothingExactly`.

One comment is also not what the code does: the `chain` map's entries are never removed
(health-monitor.service.ts:45-50), since the stored promise is not the one compared with. The model keeps them.

## Model

| member | source | states |
|---|---|---|
| `AuthState.SingleFlight` | apps/session-worker/src/baileys/postgres-auth-state.ts:49-80 | in every interleaving at most one write is in flight, `writing` is set exactly while one is, and a clean in-flight snapshot of memory unchanged since the last `persist` is the memory |
| `AuthState.NoUpdateLost` | apps/session-worker/src/baileys/postgres-auth-state.ts:45-82 | whenever the coalescer is idle and clean, the row holds a value of the memory at least as new as the one the last `persist` saw, and the memory itself if nothing changed since |
| `AuthState.IdleIsCleanWithoutFailures` | apps/session-worker/src/baileys/postgres-auth-state.ts:52-74 | in a run without failed writes the coalescer is never idle and dirty, so idle means saved |
| `AuthState.FailureIsRepaired` | apps/session-worker/src/baileys/postgres-auth-state.ts:62-80 | after a failed write at any point of any run and the next `persist`, whatever is mutated, asked for or written meanwhile without another failure: whenever the coalescer is idle again it is clean and the row covers every `persist` made, and is the memory if nothing changed since; a write that fails once more leaves `writing` free |
| `AuthState.AlwaysSettles` | apps/session-worker/src/baileys/postgres-auth-state.ts:54-80 | the coalescer is never stuck: from any point of any run, idle after a failure included, one `persist` and two writes at most lead to an idle, clean coalescer whose row covers every `persist` made |
| `AuthState.WritesAreBounded` | apps/session-worker/src/baileys/postgres-auth-state.ts:52-80 | the writes ever started never exceed the `persist` calls made |
| `AuthState.SavedOnlyGrows` | apps/session-worker/src/baileys/postgres-auth-state.ts:52-74 | the row never goes back to an older value of the memory |
| `AuthState.CrashSafety` | apps/session-worker/src/baileys/postgres-auth-state.ts:52-74 | given a codec round trip, a reload at any crash point yields a whole value the memory has had, and a later crash never reloads an older one |
| `AuthState.LoadedExactly` | apps/session-worker/src/baileys/postgres-auth-state.ts:130-151 | a missing, unreadable or creds-less blob loads fresh creds and no keys; any other loads its creds and its keys, none where it has none |
| `AuthState.SetByKey` | apps/session-worker/src/baileys/postgres-auth-state.ts:106-119 | after `set` every key reads as its last update in the data, deletions included, and every other key as before |
| `AuthState.AuthStore.Save` | apps/session-worker/src/baileys/postgres-auth-state.ts:76-80 | `persist` up to the first await is the coalescer's Persist step |
| `AuthState.AuthStore.Resume` | apps/session-worker/src/baileys/postgres-auth-state.ts:54-73 | a resumed `runWrites` loops, ends or breaks as the Resolve and Reject steps say |
| `AuthState.AuthStore.Set` | apps/session-worker/src/baileys/postgres-auth-state.ts:106-119 | the nested buckets, read as one flat map, are those of a plain map under the same updates, and one `persist` follows |
| `AuthState.AuthStore.SetBucket` | apps/session-worker/src/baileys/postgres-auth-state.ts:108-117 | updating one bucket in place updates exactly its keys of the flat map |
| `AuthState.AuthStore.Get` | apps/session-worker/src/baileys/postgres-auth-state.ts:90-105 | returns exactly the stored ids among those asked for, sync keys rebuilt |
| `AuthState.AuthStore.Clear` | apps/session-worker/src/baileys/postgres-auth-state.ts:121-124 | leaves no key, keeps the credentials and persists |
| `HealthMonitor.CommandsFollowStatus` | apps/core/src/health-monitor/health-monitor.service.ts:107-169 | a signal sends a CONTROL command exactly when it changes the status, at most one, and of the kind that matches the new status |
| `HealthMonitor.RecoveredHeals` | apps/core/src/health-monitor/health-monitor.service.ts:80-92 | for a live chip whose last signal is not in the future, RECOVERED gives min(100, score + 8 + two points per silent hour, that part at most 100), clears the failures, never retires and never costs a point |
| `HealthMonitor.BadSignalCosts` | packages/shared/src/health-signals.ts:9-29 | each bad signal takes its literal cost (12, 6, 4, 15, 5) off a live chip however long the silence before it, and only SEND_FAIL adds a failure |
| `HealthMonitor.PolicyInNumbers` | apps/core/src/health-monitor/health-monitor.service.ts:107-169 | band by band: below 30 or at five failures retired, below 50 cooled down, below 70 the cap halved but never below 1, from 70 on a cooldown lifted to WARMING with a cap of 5; the command that goes out in each |
| `HealthMonitor.SweepKeepsLively` | apps/core/src/health-monitor/health-monitor.service.ts:183-190 | a chip the sweep lifts gains 25 points and has at least 70, with a cap of 5 and no failures, and the lifecycle bounds hold again |
| `HealthMonitor.SelectedExactly` | apps/core/src/health-monitor/health-monitor.service.ts:177-181 | the sweep's query selects exactly the cooled-down rows silent for an hour |
| `HealthMonitor.HealthMonitorService.HandleSignal` | apps/core/src/health-monitor/health-monitor.service.ts:54-105 | the statements of `process`, run in order, leave the row and commands of `Process`, for which `RecoveredHeals`, `BadSignalCosts` and `PolicyInNumbers` give every score, failure count, cap, status and command in numbers; unknown and retired chips are untouched |
| `HealthMonitor.HealthMonitorService.SweepCooldowns` | apps/core/src/health-monitor/health-monitor.service.ts:176-190 | every silent cooled-down chip is lifted with one START each, in order, and no other row changes |
| `HealthChain.PlanIsProcess` | apps/core/src/health-monitor/health-monitor.service.ts:54-169 | the awaited operations of one call, all carried out, add up to the undisturbed call |
| `HealthChain.OneAtATime` | apps/core/src/health-monitor/health-monitor.service.ts:36-52 | in every interleaving at most one call per chip is past its start and not settled |
| `HealthChain.AlwaysSerial` | apps/core/src/health-monitor/health-monitor.service.ts:36-126 | at every moment of every run, throwing calls included, each chip shows its calls one after another in arrival order, each as far as it got |
| `HealthChain.Serialisable` | apps/core/src/health-monitor/health-monitor.service.ts:36-126 | once a chip's calls have come back without throwing, its row and commands are those of folding atomic `process` over its signals in arrival order |
| `HealthChain.NeverStuck` | apps/core/src/health-monitor/health-monitor.service.ts:41-44 | while a call is open some call can take a step, whatever threw before it |
| `HealthChain.EveryCallSettles` | apps/core/src/health-monitor/health-monitor.service.ts:36-52 | from every reachable state a finite run without new signals and without a throw brings back every call |
| `HealthChain.SignalChain.IngestSignal` | apps/core/src/health-monitor/health-monitor.service.ts:36-52 | a call is chained behind the one the map holds for its chip and takes its place |
| `HealthChain.SignalChain.CarryOut` | apps/core/src/health-monitor/health-monitor.service.ts:76-169 | one awaited operation updates its named columns of the current row or appends its command, as the machine's step |
| `Fleet.LifecycleHolds` | apps/core/src/health-monitor/health-monitor.service.ts:70-190 | in every run of all writers, a chip not retired has score in [30, 100] and fewer than five failures, and one cooling down is below 70 with a last signal |
| `Fleet.RetiredIsTerminal` | apps/core/src/chips/chips.service.ts:50-64 | no step loses a chip, and only registering it again takes it out of RETIRED, to NEW |
| `Fleet.SweepLiftsEverySilentChip` | apps/core/src/health-monitor/health-monitor.service.ts:171-190 | in any run, a sweep makes every chip cooling down and silent for an hour WARMING at 70 or more with a START queued, and leaves the others cooling down |
| `Fleet.RetirementBound` | apps/core/src/health-monitor/health-monitor.service.ts:80-126 | bad signals whose weights add up to more than 70, or five failed sends, retire a chip whatever interleaves, short of RECOVERED, a sweep of it or its registration anew |
| `Fleet.EighteenSuffice` | apps/core/src/health-monitor/health-monitor.service.ts:80-126 | so eighteen bad signals of any kind are enough |
| `Fleet.SeventeenDoNotSuffice` | packages/shared/src/health-signals.ts:9-29 | the eighteen is tight: a fresh chip loses four points a NO_READ and is retired by the eighteenth, not before |
| `Fleet.RecoveredNeverHurts` | apps/session-worker/src/session/baileys-session.ts:155 | in any run of all writers RECOVERED never takes a point, never retires, clears the failures, and leaves the chip cooling down exactly when its healed score is below 50, or below 70 where it was cooling down |
| `Fleet.RecoveredCanCoolDown` | apps/core/src/health-monitor/health-monitor.service.ts:107-126 | a run from the empty system: a chip started by hand at 36 points connects, and the RECOVERED it reports cools it down at 44 with a STOP queued |
| `Fleet.FailuresAreInARow` | apps/core/src/health-monitor/health-monitor.service.ts:88-92 | in every run a live chip counts at most the failed sends since its last RECOVERED |
| `Fleet.SafeExactlyWhenGuarded` | apps/session-worker/src/supervisor/supervisor.ts:87-176 | a step keeps "draining the queue leaves no session for a paused, cooled-down or retired chip" exactly when it neither pairs a chip on hold nor recovers one whose STOP is already consumed |
| `Fleet.KillSwitchExactly` | apps/session-worker/src/supervisor/supervisor.ts:87-176 | over whole runs the fleet is safe throughout if and only if every step is so guarded |
| `Fleet.KillSwitch` | apps/session-worker/src/supervisor/supervisor.ts:107-176 | end to end: with the CONTROL queue drained, no chip that is PAUSED, COOLDOWN or RETIRED has a session |
| `Fleet.DrainingEnds` | apps/session-worker/src/supervisor/supervisor.ts:107-176 | consuming the whole queue leaves a session for a chip exactly when the fold that defines a safe fleet says so |
| `Fleet.DrainingIsSafe` | apps/session-worker/src/supervisor/supervisor.ts:107-176 | at every point of every guarded run, consuming what is queued then leaves no session for a paused, cooled-down or retired chip |
| `Fleet.NeverStartsRetired` | apps/session-worker/src/supervisor/supervisor.ts:121-139 | in any state, a session only ever appears for a known chip that is not retired, and only by a command or recovery |
| `Fleet.RecoveryCanReviveAPausedChip` | apps/session-worker/src/supervisor/supervisor.ts:87-103 | a run from the empty system: of any two chips, one paused while the worker is still reconnecting the other ends with a session and an empty queue |
| `Fleet.PauseHoldsExactly` | apps/core/src/chips/chips.service.ts:160-176 | over whole runs without a manual START or a new registration of it, a chip paused by hand stays off throughout if and only if no signal takes its score into the cooldown band |
| `Fleet.PausedChipIsRestarted` | apps/core/src/health-monitor/health-monitor.service.ts:107-190 | such a signal turns the pause into a cooldown, and an hour of silence later the sweep makes the chip WARMING and queues a START |
| `Fleet.PauseEndsByItself` | apps/core/src/health-monitor/health-monitor.service.ts:107-190 | a run from the empty system: a chip is paused by hand, nobody starts it or registers it anew, and it ends WARMING with a START queued |
| `Fleet.BootListsLiveChips` | apps/session-worker/src/supervisor/supervisor.ts:87-95 | after a process start a chip is on the recovery list if and only if it is stored and ACTIVE or WARMING; no session is left and no row or command changes |
| `Fleet.RestartReconnectsExactly` | apps/session-worker/src/supervisor/supervisor.ts:87-103 | working that list off undisturbed leaves a session for exactly the stored ACTIVE and WARMING chips |
| `Fleet.RecoveryReaches` | apps/session-worker/src/supervisor/supervisor.ts:97-103 | with any other events in between, once the list is worked off every chip of it that is not retired has its session, unless a start failed or a queued command stopped it |
| `Fleet.RecoveryStartsNoOthers` | apps/session-worker/src/supervisor/supervisor.ts:87-103 | as long as no command is consumed, a session only appears for a chip of the list |
| `Fleet.ConnectedInNumbers` | apps/session-worker/src/supervisor/supervisor.ts:245-257 | the first connection of a new chip makes it WARMING on ramp day 1 with a cap of 5; any other only renews its last signal |
| `Fleet.ChipsService.SendControl` | apps/core/src/chips/chips.service.ts:157-180 | a manual command changes the status it may change and is queued; RETIRED is never undone |
| `Fleet.ChipsService.Create` | apps/core/src/chips/chips.service.ts:45-92 | registration inserts a fresh row, takes a retired one back, and refuses any other |
| `Fleet.Supervisor.ConsumeControl` | apps/session-worker/src/supervisor/supervisor.ts:107-119 | one job of the CONTROL worker is the machine's Deliver step |
| `Fleet.Supervisor.StartSession` | apps/session-worker/src/supervisor/supervisor.ts:121-165 | keeps a session it has, starts none for an unknown or retired chip, and drops one whose start fails |
| `Fleet.Supervisor.BeginRecovery` | apps/session-worker/src/supervisor/supervisor.ts:87-95 | a process start empties the map and lists, once, exactly the given chips that are stored and ACTIVE or WARMING, in order |
| `Fleet.Supervisor.RecoverOne` | apps/session-worker/src/supervisor/supervisor.ts:97-102 | one turn of the recovery loop is the machine's RecoverNext step |
| `Ramp.RampIsMonotone` | apps/core/src/scheduler/scheduler.service.ts:381-389 | on a rising curve the cap never falls from one ramp day to a later one and never exceeds the curve's top; a flow's own cap other than 0 only lowers it, to the smaller of the two |
| `Ramp.ResetOncePerDay` | apps/core/src/scheduler/scheduler.service.ts:391-423 | a second reset on the same day changes nothing |
| `Ramp.WarmUp` | apps/core/src/scheduler/scheduler.service.ts:391-423 | after resets on n days a chip that is WARMING, ACTIVE or COOLDOWN is n ramp days on, counts from zero and has the curve's cap of that day; a warming one is ACTIVE exactly from the configured day on, the others keep their status |
| `Ramp.OthersAreNotReset` | apps/core/src/scheduler/scheduler.service.ts:395-401 | a chip that is NEW, PAUSED or RETIRED is left alone by any number of resets |
| `Ramp.DailyReset.ResetDailyIfNeeded` | apps/core/src/scheduler/scheduler.service.ts:391-423 | resets every listed row that is WARMING, ACTIVE or COOLDOWN and not reset since midnight, and leaves every other row as it is |
| `Outreach.KeptExactly` | apps/core/src/suppression/suppression.service.ts:28-55 | for any set of phones that reach one person, a step keeps "once one of them is on the list, no lead of any of them is PENDING or QUEUED in any flow" exactly when it is no unseen insert of one, no listing of one while a lead of another is in line, and no unlisting of one, suppressed leads with it, while another is listed |
| `Outreach.SpellingBreaksExactlyWhenStale` | apps/core/src/leads/lead-import.service.ts:117-163 | for a phone as it is written, the only such step is an import that inserts a row of it on a reading of the list from before it opted out |
| `Outreach.KeptThroughoutExactly` | apps/core/src/suppression/suppression.service.ts:28-55 | over whole runs of dispatches, imports, turns, suppressions and their reversal, and for any such set, the promise holds throughout if and only if no step breaks it |
| `Outreach.OptOutHoldsExactly` | apps/core/src/conversation/conversation.service.ts:105-121 | over whole runs from the beginning and for every number, once it opted out under either spelling no lead of any of its spellings is in line, if and only if no step breaks that |
| `Outreach.StaleImportReachesThePhone` | apps/core/src/leads/lead-import.service.ts:117-163 | a run from the empty system: a phone that opts out between an import's reading of the list and its insert is in line, and gets an opening queued |
| `Outreach.OtherSpellingIsStillOpened` | apps/core/src/suppression/suppression.service.ts:28-39 | a run from the empty system: a number is imported under both spellings, its owner answers the first opening and asks out, and the next tick opens the other lead; no import was stale, and the promise to each spelling as written is kept |
| `Outreach.FlagsHoldExactly` | apps/core/src/suppression/suppression.service.ts:28-55 | over whole runs, rows are flagged exactly when their phone is on the list, and out of line then, if and only if no import inserts a row on a stale verdict in either direction |
| `Outreach.OptOutIsFinal` | apps/core/src/suppression/suppression.service.ts:28-39 | after any run at all and a `suppress`, in any interleaving without `unsuppress` of the phone and without a breaking step, the messages queued to it are at most one per claim and turn already under way; the same of all spellings of its number when no lead of the other one was in line |
| `Outreach.EitherSpellingIsSilenced` | apps/core/src/conversation/conversation.service.ts:105-121 | an inbound message under either spelling of an opted-out phone starts no turn |
| `Outreach.UnsuppressRestores` | apps/core/src/suppression/suppression.service.ts:42-55 | `unsuppress` after `suppress` restores list and flags and puts the phone's leads back in line, touching no other row |
| `Outreach.OpeningsNeverExceedEntries` | apps/core/src/scheduler/scheduler.service.ts:219-281 | under overlapping ticks, failures and suppressions, the openings ever queued for a lead never exceed the times it entered PENDING |
| `Outreach.ClaimsOpeningsAndCountsAgree` | apps/core/src/scheduler/scheduler.service.ts:225-270 | in a failure-free run at rest, successful claims, queued openings and `sentToday` increments are equal |
| `Outreach.UndisturbedRun` | apps/core/src/scheduler/scheduler.service.ts:211-281 | one dispatch alone opens its lead, or puts it back in line wherever it throws, and counts only what it queued |
| `Outreach.FirstPendingIsOldest` | apps/core/src/scheduler/scheduler.service.ts:219-223 | the lead a dispatch looks up is in line and no lead created before it is |
| `Outreach.NoLeadStarves` | apps/core/src/scheduler/scheduler.service.ts:219-281 | a lead with n leads in line before it stays in line for n dispatches that go through, and the next one opens it |
| `Outreach.StatusMoves` | apps/core/src/scheduler/scheduler.service.ts:225-281 | the life of a lead: QUEUED only from PENDING by a claim, PENDING only from QUEUED by a throw or from SUPPRESSED by `unsuppress`, CONVERSING only from OPENED or QUEUED after a turn; only the end of a dispatch overwrites whatever is there |
| `Outreach.AnsweredLeadConverses` | apps/core/src/conversation/conversation.service.ts:486-490 | after an answered turn a lead that was OPENED or QUEUED is CONVERSING, one of any other status keeps it, and no other lead changes |
| `Outreach.SuppressionService.SuppressPhone` | apps/core/src/suppression/suppression.service.ts:28-39 | lists the phone and flags and suppresses its rows in every flow, no other |
| `Outreach.SuppressionService.UnsuppressPhone` | apps/core/src/suppression/suppression.service.ts:42-55 | takes the phone off the list, and its two updates together clear the flag and requeue exactly the suppressed rows |
| `Outreach.SuppressionService.UpdateWhere` | apps/core/src/suppression/suppression.service.ts:34-53 | an `updateMany` changes every row its filter selects and none other |
| `Outreach.DispatchService.FindFirst` | apps/core/src/scheduler/scheduler.service.ts:219-223 | finds a lead in line with none in line before it, and nothing only when no lead is in line |
| `Outreach.DispatchService.DispatchOne` | apps/core/src/scheduler/scheduler.service.ts:211-281 | the statements of `dispatchOne` with nothing in between leave what the machine's events leave, for each place it may throw: a dispatch that goes through opens the oldest lead in line, one that throws leaves every lead as it was |
| `Outreach.DispatchService.SendClaimed` | apps/core/src/scheduler/scheduler.service.ts:231-280 | after the claim the lead ends OPENED, or PENDING wherever it throws, and the queue and counter hold what happened before that |
| `Phones.VariantsAgree` | apps/core/src/conversation/conversation.service.ts:52-64 | being a spelling of the same number is symmetric and transitive: every variant has the same variants |
| `Phones.BothSpellings` | apps/core/src/conversation/conversation.service.ts:52-64 | a Brazilian mobile with and without its ninth digit has exactly both spellings as variants |
| `Pacing.DailyCapHolds` | apps/core/src/scheduler/scheduler.service.ts:121-209 | when the least delay of every flow a chip serves, and the key's lifetime, outlast a tick, then at every point of every run its openings since its last reset are at most the largest cap it has held since, though ticks work on stale rows and caps are lowered meanwhile |
| `Pacing.CapHoldsExactly` | apps/core/src/scheduler/scheduler.service.ts:121-209 | for any bound on ticks and any jitter settings of the chip's flows, every run keeps the chip within its cap if and only if each flow's least delay, and the key's lifetime, outlast a tick |
| `Pacing.StaleTickServes` | apps/core/src/scheduler/scheduler.service.ts:121-209 | where they do not, a run from the empty scheduler in which one tick serves a chip with a cap of one as often as the delay fits into the tick |
| `Pacing.OpeningsArePaced` | apps/core/src/scheduler/scheduler.service.ts:329-347 | in every run, however long its ticks and short its delays, any two openings of a chip are at least the chip's own least delay under the earlier dispatch's settings apart, or the key's 24 hours where that is less |
| `Pacing.OpeningsAreMinGapApart` | apps/core/src/scheduler/scheduler.service.ts:329-347 | whatever the chip, that is at least round(0.75 · minimum jitter) milliseconds |
| `Pacing.ZeroJitterBreaksTheCap` | apps/core/src/scheduler/scheduler.service.ts:308-347 | with zero jitter, a run from the empty scheduler in which one tick queues any number of openings for a chip with a cap of one, at one instant |
| `Pacing.SendKeys.DueBySchedule` | apps/core/src/scheduler/scheduler.service.ts:329-332 | a chip is due exactly when its key is missing, expired or past |
| `Pacing.SendKeys.ArmNextSend` | apps/core/src/scheduler/scheduler.service.ts:334-347 | arms only that chip, with the flow's jitter or the defaults: no sooner than the minimum gap and no later than round(maximum · factor), or at round(minimum · factor) where the maximum leaves no room above the minimum |
| `SendConfig.PerChipFactor` | packages/shared/src/send-config.ts:40-47 | for every id the wrapped loop computes the signed 32-bit residue (ToInt32, section 7.1.6 of ECMA-262) of the unbounded base-31 polynomial, and the factor lies in [0.75, 1.3494] |
| `SendConfig.WrapEarlyOrLate` | packages/shared/src/send-config.ts:41-44 | wrapping to 32 bits at every step is wrapping once at the end |
| `SendConfig.ResidueIsSigned` | packages/shared/src/send-config.ts:43 | the residue is in the signed 32-bit range and differs from the polynomial by a multiple of 2^32 |
| `SendConfig.PolynomialIsPositional` | packages/shared/src/send-config.ts:41-44 | the polynomial of a concatenation is that of its front, times 31 to the length of the rest, plus that of the rest |
| `SendConfig.FactorsDiffer` | packages/shared/src/send-config.ts:45-46 | two hashes give one factor exactly when their sizes agree modulo 1000; otherwise the factors are 0.0006 apart for each step between those remainders |
| `SendConfig.RoundIsNearest` | apps/core/src/scheduler/scheduler.service.ts:340 | rounding goes to the nearest whole number, and up from the middle |
| `SendConfig.DelayIsAtLeastMinGap` | apps/core/src/scheduler/scheduler.service.ts:334-340 | whatever the chip, the configuration and the draw, the delay is at least three quarters of a non-negative minimum |
| `SendConfig.LeastDelayIsLeast` | apps/core/src/scheduler/scheduler.service.ts:334-340 | no draw arms a chip with less than the draw of 0 does |
| `SendConfig.BaseIsInRange` | apps/core/src/scheduler/scheduler.service.ts:337-339 | the base drawn is at least the minimum and below the maximum, and the minimum itself where they are at most one apart |
| `SendConfig.BaseIsWhole` | apps/core/src/scheduler/scheduler.service.ts:337-339 | with whole bounds the base is a whole number with minimum <= base < maximum |
| `SendConfig.EveryBaseIsDrawn` | apps/core/src/scheduler/scheduler.service.ts:337-339 | and each whole number b there is drawn, by the draw (b - minimum) / (maximum - minimum) |
| `SendConfig.EveryDelayIsDrawn` | apps/core/src/scheduler/scheduler.service.ts:334-340 | so each of them gives its delay for every chip: no part of the configured range is left out |
| `SendConfig.BaseRises` | apps/core/src/scheduler/scheduler.service.ts:337-339 | a greater draw never gives a smaller base |
| `SendConfig.DelayIsAtMost` | apps/core/src/scheduler/scheduler.service.ts:334-340 | whatever the chip and the draw, the delay is at most round(maximum · factor), and round(minimum · factor) where the two are at most one apart |
| `SendConfig.DrawDelay` | apps/core/src/scheduler/scheduler.service.ts:334-340 | the delay drawn is between the minimum gap of a non-negative minimum and round(maximum · factor), and no less than the chip's least delay |
| `Draw.DrawIndex` | apps/core/src/scheduler/scheduler.service.ts:300-305 | for every draw in [0, total) the subtracting loop returns the candidate in whose interval, as long as its weight, the draw falls; the fallback is unreachable |
| `Draw.OwnerIsUnique` | apps/core/src/scheduler/scheduler.service.ts:296-305 | no draw has two owners |
| `Draw.DrawBy` | apps/core/src/scheduler/scheduler.service.ts:366-374 | a draw scaled to the sum of the weights picks its owner |
| `Draw.PickEligibleChip` | apps/core/src/scheduler/scheduler.service.ts:284-306 | a chip is returned exactly when one is eligible, and it is the eligible one that owns the draw in proportion to free capacity |
| `Draw.PassedOverExactly` | apps/core/src/scheduler/scheduler.service.ts:308-332 | a chip is passed over exactly when it is not ACTIVE or WARMING, has less than 50 points, has used up its cap, is outside the flow's or its own hours, has a rest day or is not due |
| `Draw.PoolAvoidsRecent` | apps/core/src/scheduler/scheduler.service.ts:354-357 | recently used openings are drawn only when every active one is recent |
| `Draw.PickFrom` | apps/core/src/scheduler/scheduler.service.ts:356-374 | the opening drawn owns the draw among the openings left, each of which has a share of max(weight, 1) |
| `Draw.RememberKeepsLatest` | apps/core/src/scheduler/scheduler.service.ts:360-361 | pushing and trimming keeps the list equal to the latest five draws, newest first |
| `Draw.OpeningPicker.PickOpeningForChip` | apps/core/src/scheduler/scheduler.service.ts:350-364 | repeats one of the last five openings the chip drew only when every active opening is among them |
| `Inbound.AtMostOnce` | apps/core/src/conversation/conversation.service.ts:105-119 | for any concurrent handlers, redeliveries, retries and failures, at most one reply job is ever queued for a message that has an id |
| `Inbound.SeenExactly` | apps/core/src/conversation/conversation.service.ts:110-119 | in any state a step makes a message a duplicate exactly when it records it; receipts of own messages never do, and a duplicate stays one |
| `Inbound.ConvsOnlyGain` | apps/core/src/conversation/conversation.service.ts:421-468 | no step takes back a recorded message or a sent link |
| `Inbound.LinkIsEarned` | apps/core/src/conversation/conversation.service.ts:403-410 | in any interleaving, when a job with the link is queued at least the flow's minimum of inbound messages is recorded in the conversation |
| `Inbound.LinkIsAskedFor` | apps/core/src/conversation/conversation.service.ts:403-410 | in any interleaving, a job with the link answers a message whose own turn was judged an ordinary answer that shows intent |
| `Inbound.LinkGoesOutWhenEarned` | apps/core/src/conversation/conversation.service.ts:306-329 | in a conversation answered message by message the link goes out with exactly the first message that shows intent once the flow's minimum is reached |
| `Inbound.OneLinkHolds` | apps/core/src/conversation/conversation.service.ts:306-329 | in a run without clashes, overlapping turns included, at most one job of a conversation ever carries its link; a clash is an accepted insert of a turn that decided on the link while it is marked or under way by now, or a failure between its enqueue and its mark |
| `Inbound.SecondLinkFollows` | apps/core/src/conversation/conversation.service.ts:306-329 | from every reachable state, a clash is followed by some run without a further clash that queues a second link |
| `Inbound.OneLinkExactly` | apps/core/src/conversation/conversation.service.ts:306-329 | after a run without clashes, a step leaves every clash-free continuation at one link if and only if it is not a clash |
| `Inbound.LinkRelease` | apps/core/src/conversation/conversation.service.ts:306-329 | when a conversation's turns do not overlap and none fails after its enqueue, at most one job carries its link, and not before enough messages are recorded |
| `Inbound.OverlappingTurnsSendTwoLinks` | apps/core/src/conversation/conversation.service.ts:308-319 | a run from the beginning: two messages of one conversation heard at once both queue the link |
| `Inbound.ConversationService.AlreadyProcessed` | apps/core/src/conversation/conversation.service.ts:110-119 | tells whether any chip has recorded the message id as inbound |
| `Inbound.ConversationService.RecordInbound` | apps/core/src/conversation/conversation.service.ts:421-433 | inserts exactly when the unique index allows it, a missing id always, and otherwise changes nothing |
| `Inbound.ConversationService.RecordAndEnqueueOut` | apps/core/src/conversation/conversation.service.ts:435-468 | queues one reply and marks the link exactly when the reply carries it |
| `Inbound.ConversationService.ProcessTurn` | apps/core/src/conversation/conversation.service.ts:248-329 | a turn the unique index refuses changes nothing; any other records the message once and, unless it is an opt-out, queues one reply, which carries the link if and only if the turn is an ordinary answer that shows intent, the minimum is reached with this message and no link was sent |
| `Inbound.ConversationService.HandleInbound` | apps/core/src/conversation/conversation.service.ts:105-329 | an undisturbed handler leaves what its steps leave and replies exactly to a new message of a known conversation that is no opt-out, with the link if and only if intent is shown, the minimum is reached and none was sent |
| `LeadImport.Chunk` | apps/core/src/leads/lead-import.service.ts:40-44 | the pieces are non-empty, full except perhaps the last, and make up the whole in order |
| `LeadImport.CollectPhones` | apps/core/src/leads/lead-import.service.ts:189-199 | looking up in chunks finds what one query for everything would find |
| `LeadImport.ImportIsAHomomorphism` | apps/core/src/leads/lead-import.service.ts:69-186 | importing A then B leaves the leads of importing A and B as one file, and invalid, duplicate and inserted counts add up |
| `LeadImport.ImportPartitions` | apps/core/src/leads/lead-import.service.ts:69-186 | every row is invalid, a duplicate or inserted, and no existing lead is lost or overwritten |
| `LeadImport.ReimportIsIdempotent` | apps/core/src/leads/lead-import.service.ts:92-134 | importing a file again inserts nothing and changes no lead |
| `LeadImport.ImportRespectsOptOut` | apps/core/src/leads/lead-import.service.ts:117-163 | a new lead is suppressed exactly when its phone is on the list |
| `LeadImport.CleanKeepsExactly` | apps/core/src/leads/lead-import.service.ts:72-90 | as many rows are kept as normalise, each behind those before it in the file, with its own phone, name and other columns |
| `LeadImport.NewLeadIsItsFirstRow` | apps/core/src/leads/lead-import.service.ts:92-163 | a phone new to the flow becomes a lead with the name and the other columns of the first row that normalises to it |
| `LeadImport.NoRowNoLead` | apps/core/src/leads/lead-import.service.ts:72-163 | and a phone no row normalises to does not become one |
| `LeadImport.NothingSkippedExactlyWhenFresh` | apps/core/src/leads/lead-import.service.ts:160-174 | rows with new phones all go in if and only if the slugs drawn for them are new and distinct |
| `LeadImport.OutcomeOfSteps` | apps/core/src/leads/lead-import.service.ts:92-174 | deduplicating, dropping known phones and inserting with chunked look-ups comes to merging the file's first rows into the table |
| `LeadImport.LeadImportService.CleanFile` | apps/core/src/leads/lead-import.service.ts:72-90 | keeps every row that normalises, in order, and counts the others |
| `LeadImport.LeadImportService.DedupInFile` | apps/core/src/leads/lead-import.service.ts:92-103 | keeps the first row of each phone and counts the rest |
| `LeadImport.LeadImportService.DropKnown` | apps/core/src/leads/lead-import.service.ts:126-134 | drops exactly the rows whose phone the flow already has and counts them |
| `LeadImport.LeadImportService.CreateMany` | apps/core/src/leads/lead-import.service.ts:165-168 | inserting in chunks with `skipDuplicates` inserts as row by row would, and the counts sum to the growth of the table |
| `LeadImport.LeadImportService.ImportRows` | apps/core/src/leads/lead-import.service.ts:50-186 | total = invalid + duplicates + inserted + skipped for any slugs, no lead changes, and with fresh slugs nothing is skipped and the leads are those of the definition |
| `Template.ScanExactly` | apps/core/src/common/template.ts:7 | the scanner finds a placeholder exactly when one of the expression's language is at the front, and that one |
| `Template.LexIsLossless` | apps/core/src/common/template.ts:12-25 | the source texts of literals and placeholders concatenate to the template, and no placeholder begins inside a literal |
| `Template.LexIsUnique` | apps/core/src/common/template.ts:12-25 | that reading is the only one: any leftmost sequence of tokens is what the lexer gives on its own text |
| `Template.PlaceholderRenders` | apps/core/src/common/template.ts:12-18 | for every key, fallback, context and rest of the template, a placeholder renders to the non-empty value of its key, otherwise to its fallback, or to nothing when it has none |
| `Template.LiteralRenders` | apps/core/src/common/template.ts:12-18 | a character at which no placeholder begins renders to itself |
| `Template.KeysInOrder` | apps/core/src/common/template.ts:21-25 | keys are listed in the order of their first occurrence |
| `Template.RenderUsesOnlyItsVariables` | apps/core/src/common/template.ts:12-25 | rendering depends on the context only at the variables `extractVariables` lists |
| `Template.RenderingPlaceholdersIsIdentity` | apps/core/src/common/template.ts:12-18 | rendering a fallback-free template with each key bound to its own placeholder gives the template back |
| `Template.NothingMissingExactly` | apps/core/src/common/template.ts:28-42 | nothing is missing exactly when every placeholder without a fallback renders to a non-empty text |
| `Template.ExtractVariables` | apps/core/src/common/template.ts:21-25 | lists exactly the keys of the template's placeholders, each once |
| `Template.MissingVariables` | apps/core/src/common/template.ts:28-42 | returns an empty list exactly when nothing is missing |
| `Humanize.CeilTwice` | apps/core/src/conversation/humanize.ts:12-17 | blocks of ceil(n / k) sentences number at most k, so the final slice drops nothing |
| `Humanize.BlocksAreFew` | apps/core/src/conversation/humanize.ts:13-16 | grouping n sentences by `size` gives ceil(n / size) balloons |
| `Humanize.BalloonsExactly` | apps/core/src/conversation/humanize.ts:2-18 | a text of at most 140 code units and a single sentence stay whole, trimmed; a longer one of n sentences gives exactly ceil(n / ceil(n / maxParts)) balloons |
| `Humanize.MatchesAreSentences` | apps/core/src/conversation/humanize.ts:6-9 | every match is some text without a mark and then marks to its end; only the last, with which the text ends, may have none |
| `Humanize.MarksAndBlanks` | apps/core/src/conversation/humanize.ts:7 | among the characters of ASCII the marks are `.`, `!` and `?`, and white space is space, tab, line feed, vertical tab, form feed and carriage return |
| `Humanize.JoinConcat` | apps/core/src/conversation/humanize.ts:14-16 | sentences of a balloon are joined by single blanks, however they are grouped |
| `Humanize.TrimExactly` | apps/core/src/conversation/humanize.ts:3-9 | trimming takes off the white space at both ends, all of it and nothing else |
| `Humanize.SplitLosesNothingExactly` | apps/core/src/conversation/humanize.ts:2-18 | for every text at most `maxParts` balloons, holding all its non-blank characters in order if and only if it is not a long text of several sentences that begins with a mark |
| `Humanize.Group` | apps/core/src/conversation/humanize.ts:13-16 | the loop over blocks groups consecutive sentences, all of them, in order |
| `Humanize.SplitMessage` | apps/core/src/conversation/humanize.ts:2-18 | the method as a whole has the exact law of splitting and the exact number of balloons |

## Left out

- Panel, controllers, DTOs, authentication, environment validation, module wiring, Docker, migrations: plumbing.
- Baileys sockets, QR and pairing codes, proxies, language models and prompts, Redis and BullMQ internals: foreign
  calls, present only as events that may succeed or fail.
- Session reconnection inside the worker, and two `startSession` calls for one chip at once: commands are consumed
  one at a time.
- Redelivery of CONTROL jobs and the worker's concurrency of four on that queue.
- Races between the health chain and the other writers of a row inside one of their calls: sweep, daily reset and
  manual control are atomic steps; `HealthChain` has no other writer.
- `HealthEvent` rows, which nothing reads back.
- `AuthState.AuthStore.Save`: a write reported as failed is not applied later; a serialisation that throws is not
  modelled.
- `AuthState.AuthStore.Get`: object prototypes and falsy sync-key values are not modelled.
- `AuthState.CrashSafety`: the codec is any pair of functions with a round trip; JSON itself is not modelled.
- `Pacing.DailyCapHolds`: a failure after the enqueue puts the lead back with its opening queued and uncounted, and is
  excluded; so is a chip registered anew in the middle of a tick. The daily reset and the reading of rows are one
  step at the start of a tick.
- `Pacing.SendKeys.ArmNextSend`: delays are reals rounded once; rounding of doubles is not modelled.
- `SchedulerService.tick` as one method, and the closing of a dispatch without leads in line: `Pacing`, `Outreach` and
  `Draw` model the parts of a tick.
- `Inbound.ConversationService.HandleInbound`: how a text is judged (opt-out, handoff, intent keywords) and what the
  model answers are parameters; the guard loop, typing delays and rolling summary are left out.
- `Outreach.OptOutIsFinal`: the check of the list and the look-up of the conversation at the start of an inbound turn
  are one step.
- `LeadImport.LeadImportService.ImportRows`: CSV and XLSX parsing, column detection and the flow's existence; phone
  normalisation is any partial function. The import is alone with its table here; `Outreach` has the races.
- `Template.RenderUsesOnlyItsVariables`: keys are looked up in a map, without JavaScript's inherited properties;
  `buildLeadContext` is left out.
- `Humanize.SplitMessage`: `maxParts` is positive, as its callers pass it; URLs may gain blanks, which the law ignores.
- `DeliveryMonitorService`, `parseSendConfig`, `typingDelays`, link bridge: easy, or repeating the code.
