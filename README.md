# finger — a Dafny model of the window-automation core

finger runs small Lua scripts ("bots"), each bound to the live windows whose
title matches the bot's window pattern. A background orchestrator keeps an
agent per bound window (an *instance*), ticks the agents one after another,
each with its own cooldown, and obeys commands from a terminal control surface:
`Toggle(index)`, `StartStop`, `Restart(index)` and `Quit`. Underneath sit a
platform layer (a deterministic stub and the macOS implementation), a visual
hint decoder that reads text encoded as a strip of coloured pixels, and a
process-wide logger whose structured records the terminal UI parses back into
coloured lines.

The model, file by file:

- `types.dfy` — the shared records (`Region`, `Capture`, `Instance`,
  `BotEntry`, `Command`, run state) and the instance id `name-windowId`.
- `shared.dfy` — the shared registry, the run-state cell and the FIFO channels,
  as heap objects.
- `discovery.dfy` — the `main.lua` search over an in-memory directory tree, the
  bot-name derivation, `load_bots` and `scan_instances`.
- `reconcile.dfy` — the retain-then-push reconcile that `Toggle` runs for
  every entry.
- `orchestrator_spec.dfy` — the orchestrator as functions on its whole state.
  The state is the registry, the agent map, the cooldown map, the run state and
  a count of creation attempts.
- `orchestrator.dfy` — the orchestrator as a class whose methods hold the
  loops of `process_commands` and `orchestrate`. Each method is proved to
  change the state exactly as the matching function says.
- `orchestrator_props.dfy` — what the commands and a scheduling pass promise.
- `stub.dfy` — the stub platform.
- `darwin.dfy` — the macOS platform without its foreign calls. This covers the
  window-list filter, the region arithmetic in `i32`, key-spec parsing for
  `tap`, and the window object with its `osascript` scripts.
- `hint.dfy` — the hint-strip scanner as a fold of one FSM step. The loops of
  `try_decode_row` and `decode_hint_v2` are proved equal to that fold.
- `logger.dfy` — the logger object, its file line and its UI record.
- `ui.dfy` — the UI's text rules: parsing a record, the log window, the
  banner, and the status of an instance row.
- `app.dfy`, `legacy_app.dfy`, `confirm.dfy` — the control surfaces and the
  confirmation dialog.
- `text.dfy`, `wrappers.dfy` — decimal printing and parsing, `split`,
  `splitn` and `join`, ASCII lower-casing, UTF-8 length, `Option` and `Result`.

External effects are parameters of the model:

- The platform's window lists are a function `live` from pattern to windows,
  passed to each call that reconciles.
- The keys the user presses on the control surface while an agent ticks are
  a list `arrivals` of actions: before step k of a scheduling pass, each
  action of `arrivals[k]` first makes the control surface's own write to the
  shared state (`toggle_selected` flips the entry's flag, `start_stop` moves
  the run state) and then queues its command (`start_stop` queues nothing
  while the state is `Stopping`).
- Whether creating an agent succeeds is a function `spawn` of the number of
  creation attempts so far.
- `tick` and `get_status` are a function `run` of the agent and the clock.
- Script metadata is a function `meta` from script path to result.
- The macOS window server's answer is an `Option` list of window records, and
  the compiled title regex is a matcher function.
- The clock is a parameter `now` (milliseconds) or `ts` (the log timestamp).

Where the descriptions of the system and its code differ, the model follows
the code:

- **Hint marker width.** The marker width that scales the data runs counts
  both marker runs: the `0x00` run and the `0x7F` run
  (crates/finger-core/src/hint.rs:63-81). It is not the `0x00` run alone.
  So the strip `0x00×5, 0x7F×5, v×10, 0x7F×5, 0x00×5` decodes to two copies
  of `v`, not four (`Hint.StripExample`).
- **Hint sampling.** The doc comment of `decode_hint_v2` says every third pixel
  is sampled, but the loop steps by one, so every pixel up to the bound is
  sampled.
- **Commands.** crates/core/src/types.rs:68-71 declares only `Toggle` and
  `Quit`, while the orchestrator and the current control surface use four
  commands. The model has all four.

## Model

| member | source | states |
|---|---|---|
| Types.NewInstance | crates/core/src/types.rs:56-64 | a new instance has id `name-windowId`, the given window and title, an empty status and no error |
| Types.InstanceIdInjective | crates/core/src/types.rs:58 | an instance id determines both the bot name and the window id |
| Types.InstanceIdDistinct | crates/core/src/types.rs:58 | one bot's ids are equal exactly when the window ids are equal |
| Text.DecimalRoundTrip | crates/core/src/types.rs:58 | the decimal text of a window id reads back as that number |
| Text.DecimalInjective | crates/core/src/types.rs:58 | distinct numbers print differently |
| Text.ParseU8Decimal | crates/tui/src/ui.rs:177 | a colour index the logger prints parses back to itself as a `u8` |
| Text.JoinSplit | crates/finger-core/src/platform/darwin.rs:257 | joining the pieces of `split('+')` restores the key spec |
| Text.SplitJoin | crates/finger-core/src/platform/darwin.rs:257 | splitting a join of separator-free pieces gives the pieces back |
| Text.SplitNPieces | crates/tui/src/ui.rs:169 | every `splitn` piece but the last is free of the separator, and so is the last when there are fewer pieces than allowed |
| Text.JoinSplitN | crates/tui/src/ui.rs:169 | joining the pieces of `splitn` restores the line |
| Text.SplitNJoin | crates/tui/src/ui.rs:169 | `splitn` into as many pieces as were joined returns them, when all but the last are free of the separator |
| Text.ToLower | crates/finger-core/src/platform/darwin.rs:262 | lower-casing keeps the length and lowers each ASCII letter |
| Text.Utf8LenOne | crates/finger-core/src/platform/darwin.rs:273 | a string of byte length one is exactly one ASCII character |
| Shared.Channel.Send | crates/tui/src/app.rs:86 | a sent message joins the back of the queue |
| Shared.Channel.TryRecv | crates/tui/src/app.rs:43 | receive returns the front message and removes it, or nothing from an empty queue |
| Discovery.FindBotDirs | crates/core/src/orchestrator.rs:12-33 | the recursive search returns the scripts of `BotScripts`, in listing order |
| Discovery.BotScriptsShape | crates/core/src/orchestrator.rs:12-33 | every found script lies below the searched directory, passes only through directories that are neither hidden nor `node_modules`, and is named `main.lua` |
| Discovery.ScriptDirStops | crates/core/src/orchestrator.rs:22-28 | a visible directory holding `main.lua` yields exactly that script and is not searched further |
| Discovery.DeriveBotName | crates/core/src/orchestrator.rs:36-43 | a derived bot name never holds a backslash |
| Discovery.DeriveBotNameOfScript | crates/core/src/orchestrator.rs:36-43 | a script below the root is named by its directory path relative to the root, joined with '/' |
| Discovery.DeriveBotNameTopLevel | crates/core/src/orchestrator.rs:35-43 | a bot directory directly under the root is named by that directory's own name |
| Discovery.Loaded | crates/core/src/orchestrator.rs:46-71 | each loaded entry comes from a found script whose metadata loaded, is disabled, has no instances and no error, and has the pattern and description of that metadata |
| Discovery.LoadedKeepsLoadable | crates/core/src/orchestrator.rs:50-63 | a script whose metadata loads is never dropped |
| Discovery.LoadBots | crates/core/src/orchestrator.rs:46-71 | `load_bots` returns the loadable scripts of the search, in discovery order |
| Discovery.FreshInstances | crates/core/src/orchestrator.rs:77-80 | a scan gives one fresh instance per live window, in the platform's order |
| Discovery.ScanInstances | crates/core/src/orchestrator.rs:74-82 | every entry's instances are replaced by fresh instances of its pattern's live windows, and nothing else changes |
| Discovery.PushFresh | crates/core/src/orchestrator.rs:77-80 | the push loop builds exactly the fresh instances |
| Discovery.ScanThenReconcile | crates/core/src/orchestrator.rs:74-82 | when window ids are distinct, reconciling freshly scanned instances changes nothing, and no two instances share a window |
| Reconcile.Survivors | crates/core/src/orchestrator.rs:111-118 | `retain` keeps exactly the instances whose window is still live, in order |
| Reconcile.DeadIds | crates/core/src/orchestrator.rs:111-118 | the ids whose agent and cooldown are removed are exactly those of instances whose window vanished |
| Reconcile.ReconcileEntries | crates/core/src/orchestrator.rs:109-124 | every entry is reconciled against the live windows of its own pattern |
| Reconcile.DeadIdsAllMembers | crates/core/src/orchestrator.rs:109-124 | an id is removed exactly when some entry held it for a vanished window |
| Reconcile.AddMissingPrefix | crates/core/src/orchestrator.rs:119-123 | the push loop keeps the existing instances in front, unchanged and in order |
| Reconcile.AddMissingAdded | crates/core/src/orchestrator.rs:119-123 | after the push every live window is represented, and each appended instance is fresh, for a live window that had none, with no window appended twice |
| Reconcile.AddMissingIds | crates/core/src/orchestrator.rs:119-123 | the represented windows afterwards are those before plus every live one |
| Reconcile.AddMissingFresh | crates/core/src/orchestrator.rs:119-123 | every appended instance is `Instance::new` for a live window the instances before did not hold |
| Reconcile.AddMissingAppendedDistinct | crates/core/src/orchestrator.rs:119-123 | the appended instances are for pairwise distinct windows |
| Reconcile.AddMissingNothing | crates/core/src/orchestrator.rs:119-123 | when every live window is represented, nothing is appended |
| Reconcile.AddMissingDistinct | crates/core/src/orchestrator.rs:119-123 | instances with distinct windows keep distinct windows after the push |
| Reconcile.SurvivorsAllAlive | crates/core/src/orchestrator.rs:111-118 | when every window is live, `retain` keeps the list as it is |
| Reconcile.SurvivorsDistinct | crates/core/src/orchestrator.rs:111-118 | instances with distinct windows stay distinct after `retain` |
| Reconcile.ReconcileEntryCovers | crates/core/src/orchestrator.rs:109-124 | after a reconcile an entry's instances cover exactly the live windows; survivors come first, unchanged; the rest are fresh with the entry's id scheme |
| Reconcile.ReconcileEntryIdempotent | crates/core/src/orchestrator.rs:109-124 | reconciling twice against the same windows is reconciling once, and the second time removes nothing |
| Reconcile.ReconcileEntryDistinct | crates/core/src/orchestrator.rs:109-124 | an entry's instances never come to share a window |
| Reconcile.ReconcileEntriesIdempotent | crates/core/src/orchestrator.rs:109-124 | reconciling all entries twice is reconciling them once, and the second pass removes no agent |
| OrchestratorSpec.Spawn | crates/core/src/orchestrator.rs:136-139 | creating an agent counts one attempt; the agent is inserted under the instance id when the attempt succeeds; nothing else changes; agents stay well-formed |
| OrchestratorSpec.Forget | crates/core/src/orchestrator.rs:144-147 | removing an agent and its cooldown keeps agents well-formed |
| OrchestratorSpec.Reset | crates/core/src/orchestrator.rs:133-134 | a reset keeps the same agent (same creation) with one more reset, and changes nothing else |
| OrchestratorSpec.ResetOrStart | crates/core/src/orchestrator.rs:131-141 | existing agents are kept and those of the instances reset; only the instances get new agents; every instance has one when creation succeeds |
| OrchestratorSpec.ResetOrStartPrefix | crates/core/src/orchestrator.rs:132-141 | one more instance is reset when its agent exists and created otherwise |
| OrchestratorSpec.StartMissing | crates/core/src/orchestrator.rs:164-171 | existing agents are untouched; new agents are only for the entry's instances; all instances have one when creation succeeds |
| OrchestratorSpec.StopInstances | crates/core/src/orchestrator.rs:142-147 | the agents and cooldowns of exactly the entry's instances are removed |
| OrchestratorSpec.RestartInstances | crates/core/src/orchestrator.rs:186-195 | every instance's cooldown is erased and any agent it has afterwards is new; other agents are untouched |
| OrchestratorSpec.StartEnabled | crates/core/src/orchestrator.rs:161-172 | existing agents are untouched; new agents are only for instances of enabled entries; all of those have one when creation succeeds |
| OrchestratorSpec.StartEnabledPrefix | crates/core/src/orchestrator.rs:162-172 | one more entry adds the missing agents of its instances when it is enabled, and nothing otherwise |
| OrchestratorSpec.EnabledIdsSnoc | crates/core/src/orchestrator.rs:162-164 | the enabled ids of one more entry are those before plus its instances' ids when it is enabled |
| OrchestratorSpec.ReconcileAll | crates/core/src/orchestrator.rs:106-124 | the reconcile keeps the run state, reconciles every entry and only removes agents and cooldowns |
| OrchestratorSpec.ApplyToggle | crates/core/src/orchestrator.rs:105-149 | `Toggle` keeps the run state, leaves the entries reconciled and keeps agents well-formed |
| OrchestratorSpec.ApplyStartStop | crates/core/src/orchestrator.rs:150-176 | `StartStop` changes neither the run state nor the entries |
| OrchestratorSpec.ApplyRestart | crates/core/src/orchestrator.rs:177-196 | `Restart` changes neither the run state nor the entries |
| OrchestratorSpec.StopAll | crates/core/src/orchestrator.rs:95-104 | every agent is stopped, every cooldown cleared and the state is `Stopped`; the entries are kept |
| OrchestratorSpec.Drain | crates/core/src/orchestrator.rs:85-200 | draining that goes on leaves no command unprocessed; draining that stops leaves no agent, no cooldown and the state `Stopped`; agents stay well-formed |
| OrchestratorSpec.LocateIn | crates/core/src/orchestrator.rs:279-282 | the position found is the first instance with the id, and none means no instance has it |
| OrchestratorSpec.Locate | crates/core/src/orchestrator.rs:279-282 | the position found is the first instance with the id in registry order, and none means no instance has it |
| OrchestratorSpec.WriteBack | crates/core/src/orchestrator.rs:278-285 | status and error are written into the first instance with the id, and every other instance and every entry field is unchanged |
| OrchestratorSpec.Dispatch | crates/core/src/orchestrator.rs:260-285 | a dispatch keeps the run state, the attempt count and the set of agents |
| OrchestratorSpec.DispatchParts | crates/core/src/orchestrator.rs:260-285 | the state a dispatch leaves is determined by the deactivated agent, the new cooldown and the write-back |
| OrchestratorSpec.DispatchAll | crates/core/src/orchestrator.rs:249-286 | dispatching the ready ids with no command arriving keeps the run state and the set of agents |
| OrchestratorSpec.Act | crates/tui/src/app.rs:74-112 | a control-surface action leaves agents, cooldowns and attempts alone, queues at most one command after those already queued, queues `Quit` exactly for the quit key, and changes the run state only for start/stop |
| OrchestratorSpec.ActAll | crates/tui/src/app.rs:74-112 | a run of actions only appends commands, leaves agents alone, and queues `Quit` exactly when a quit is among them |
| OrchestratorSpec.PassStep | crates/core/src/orchestrator.rs:249-286 | a step of the dispatch loop keeps agents well-formed |
| OrchestratorSpec.Pass | crates/core/src/orchestrator.rs:249-286 | a dispatch loop, with the control surface acting between ticks, keeps agents well-formed, and leaves no command queued unless it ends the main loop |
| OrchestratorSpec.Iterate | crates/core/src/orchestrator.rs:213-289 | a loop iteration, with the control surface acting between ticks, keeps agents well-formed |
| Orchestrator.Orchestrator.constructor | crates/core/src/orchestrator.rs:210-211 | the loop starts with no agents and no cooldowns |
| Orchestrator.Orchestrator.CreateAgent | crates/core/src/orchestrator.rs:136-139 | creating an agent changes the state as `Spawn` says |
| Orchestrator.Orchestrator.ResetAgent | crates/core/src/orchestrator.rs:134 | a reset changes the state as `Reset` says |
| Orchestrator.Orchestrator.ForgetInstance | crates/core/src/orchestrator.rs:145-146 | stopping an instance changes the state as `Forget` says |
| Orchestrator.Orchestrator.RetainAlive | crates/core/src/orchestrator.rs:111-118 | the retain loop keeps the survivors and removes the agents and cooldowns of the dead ids |
| Orchestrator.Orchestrator.ReconcileEntryAt | crates/core/src/orchestrator.rs:110-123 | the entry at the index is reconciled and the maps lose its dead ids |
| Orchestrator.Orchestrator.ReconcileAllEntries | crates/core/src/orchestrator.rs:109-124 | the loop over all entries changes the state as `ReconcileAll` says |
| Orchestrator.Orchestrator.ResetOrStartOne | crates/core/src/orchestrator.rs:133-140 | an existing agent is reset, a missing one created |
| Orchestrator.Orchestrator.ResetOrStartAll | crates/core/src/orchestrator.rs:132-141 | the loop changes the state as `ResetOrStart` says |
| Orchestrator.Orchestrator.StartMissingAll | crates/core/src/orchestrator.rs:164-171 | the loop changes the state as `StartMissing` says |
| Orchestrator.Orchestrator.StopAllOf | crates/core/src/orchestrator.rs:144-147 | the loop changes the state as `StopInstances` says |
| Orchestrator.Orchestrator.RestartAll | crates/core/src/orchestrator.rs:186-195 | the loop changes the state as `RestartInstances` says |
| Orchestrator.Orchestrator.HandleToggle | crates/core/src/orchestrator.rs:105-149 | `Toggle` changes the state as `ApplyToggle` says |
| Orchestrator.Orchestrator.HandleStartStop | crates/core/src/orchestrator.rs:150-176 | `StartStop` changes the state as `ApplyStartStop` says |
| Orchestrator.Orchestrator.HandleRestart | crates/core/src/orchestrator.rs:177-196 | `Restart` changes the state as `ApplyRestart` says |
| Orchestrator.Orchestrator.StopEverything | crates/core/src/orchestrator.rs:95-104 | `Quit` and the `Stopping` teardown change the state as `StopAll` says |
| Orchestrator.Orchestrator.ProcessCommands | crates/core/src/orchestrator.rs:85-200 | the drain loop leaves state, result and queue as `Drain` says |
| Orchestrator.Orchestrator.Snapshot | crates/core/src/orchestrator.rs:236-247 | the `ready` snapshot is `Ready` of the current state |
| Orchestrator.Orchestrator.WriteStatus | crates/core/src/orchestrator.rs:278-285 | the write-back search changes the registry as `WriteBack` says |
| Orchestrator.Orchestrator.TickOutcome | crates/core/src/orchestrator.rs:265-271 | a tick leaves the requested cooldown (5000 when none or failed), the status after a successful tick, and the error of a failed one |
| Orchestrator.Orchestrator.DispatchOne | crates/core/src/orchestrator.rs:260-285 | one dispatch changes the state as `Dispatch` says |
| Orchestrator.Orchestrator.DispatchStep | crates/core/src/orchestrator.rs:249-286 | one step of the dispatch loop is `PassStep` |
| Orchestrator.Orchestrator.Iterate | crates/core/src/orchestrator.rs:213-289 | one iteration of the main loop, with the control surface acting between ticks, is `OrchestratorSpec.Iterate` |
| Orchestrator.Orchestrator.RunPass | crates/core/src/orchestrator.rs:249-286 | the dispatch loop over the snapshot, performing the actions that arrive before each step, returning at a `Quit` and leaving at a state other than `Running`, is `Pass` |
| Orchestrator.Orchestrator.Perform | crates/tui/src/app.rs:74-112 | one key on the control surface writes the shared state and sends its command, as `Act` |
| Orchestrator.Orchestrator.PerformAll | crates/tui/src/app.rs:74-112 | the keys pressed between two ticks, in order, are `ActAll` |
| Orchestrator.PassUnfold | crates/core/src/orchestrator.rs:249-286 | a pass from step i is step i followed by the pass from step i + 1 |
| Orchestrator.PushMissing | crates/core/src/orchestrator.rs:119-123 | the push loop builds exactly `AddMissing` |
| Orchestrator.RetainStep | crates/core/src/orchestrator.rs:111-118 | each retained instance extends the survivors or the dead ids by one |
| Orchestrator.ReconcileStep | crates/core/src/orchestrator.rs:109-124 | reconciling the next entry extends the reconciled prefix by one |
| Orchestrator.LocateFirst | crates/core/src/orchestrator.rs:279-282 | a position with the id and none before it is what the search finds |
| Orchestrator.LocateNone | crates/core/src/orchestrator.rs:279-282 | with no instance carrying the id, nothing is found |
| OrchestratorProps.DrainQuit | crates/core/src/orchestrator.rs:93-104 | draining returns false exactly when a `Quit` is queued; then everything is stopped and the commands after the first `Quit` are left queued; without one the queue is emptied |
| OrchestratorProps.DrainStep | crates/core/src/orchestrator.rs:93-94 | commands other than `Quit` are applied in queue order |
| OrchestratorProps.QuitShift | crates/core/src/orchestrator.rs:93-104 | a leading command other than `Quit` does not change where the first `Quit` is |
| OrchestratorProps.PassStops | crates/core/src/orchestrator.rs:249-253 | a pass ends the main loop only through a quit pressed during it, and then no agent or cooldown is left and the state is `Stopped` |
| OrchestratorProps.PassQuiet | crates/core/src/orchestrator.rs:249-286 | with no action during it, a pass from `Running` dispatches the ready ids in order and goes on |
| OrchestratorProps.ActAllState | crates/tui/src/app.rs:89-99 | only start/stop moves the run state; from `Running` it ends `Stopping` however often it is pressed, and `Stopping` stays |
| OrchestratorProps.DrainKeepsState | crates/core/src/orchestrator.rs:93-209 | draining commands other than `Quit` never changes the run state |
| OrchestratorProps.StopPressedEndsPass | crates/core/src/orchestrator.rs:249-258 | a stop pressed while an agent ticks ends the pass with nothing more dispatched, in state `Stopping`, and the next iteration stops every agent |
| OrchestratorProps.DisablePressedStops | crates/core/src/orchestrator.rs:105-149 | an entry disabled while an agent ticks is seen disabled by the drain, which removes its agents and cooldowns |
| OrchestratorProps.IterateStops | crates/core/src/orchestrator.rs:213-289 | an iteration ends the loop when a `Quit` was queued before it, goes on when none is queued and no quit is pressed, and after it ends or meets a `Stopping` state every agent and cooldown is gone and the state is `Stopped` |
| OrchestratorProps.IterateIdle | crates/core/src/orchestrator.rs:230-233 | when the state is `Stopped` after the drain, nothing is dispatched |
| OrchestratorProps.ReconcileAllEffect | crates/core/src/orchestrator.rs:109-124 | after the reconcile each entry covers exactly its live windows, and an agent or cooldown is removed exactly when its instance's window vanished; the rest are unchanged |
| OrchestratorProps.ReconcileAllIdempotent | crates/core/src/orchestrator.rs:109-124 | a second reconcile against the same windows changes nothing |
| OrchestratorProps.ReconcileAllSettled | crates/core/src/orchestrator.rs:109-124 | settled entries with nothing dead are a fixed point of the reconcile |
| OrchestratorProps.ToggleEnabledRunning | crates/core/src/orchestrator.rs:131-141 | toggling an enabled entry while running keeps all agents, resets those of its instances, creates agents only for its instances, and leaves cooldowns alone |
| OrchestratorProps.ToggleDisabled | crates/core/src/orchestrator.rs:142-148 | toggling a disabled entry removes the agents and cooldowns of all its instances, whatever the run state |
| OrchestratorProps.ToggleOnlyReconciles | crates/core/src/orchestrator.rs:126-131 | out of range, or enabled but not running, `Toggle` only reconciles |
| OrchestratorProps.StartStopEffect | crates/core/src/orchestrator.rs:150-176 | `StartStop` acts only when the state reads `Running`; it keeps every agent and adds agents only for instances of enabled entries, all of them when creation succeeds |
| OrchestratorProps.RestartEffect | crates/core/src/orchestrator.rs:177-196 | `Restart` does nothing unless running with a valid enabled index; then the entry's cooldowns are erased, its agents are new, and others are untouched |
| OrchestratorProps.ReadyInMembers | crates/core/src/orchestrator.rs:240-245 | an id is ready among some instances exactly when one of them has it and it is eligible |
| OrchestratorProps.ReadyMembers | crates/core/src/orchestrator.rs:236-247 | the snapshot holds exactly the ids of enabled entries' instances that have an agent and whose cooldown is absent or expired |
| OrchestratorProps.DispatchEffect | crates/core/src/orchestrator.rs:260-285 | a dispatch deactivates the agent, sets its cooldown to now plus the requested delay (5000 by default), keeps other cooldowns, and writes status and error into the first instance with the id |
| OrchestratorProps.PassStepCases | crates/core/src/orchestrator.rs:249-260 | a dispatch step quits on `Quit`, leaves the pass when not running and skips an id whose agent is gone |
| OrchestratorProps.StubToggleScenario | crates/core/src/orchestrator.rs:105-141 | on the stub platform, toggling an enabled "wow" bot while running gives two instances, each with an agent and no cooldown |
| OrchestratorProps.StartBothFresh | crates/core/src/orchestrator.rs:132-141 | with no agents and creation succeeding, both instances get an agent |
| OrchestratorProps.StubFarmEntry | crates/core/src/orchestrator.rs:119-123 | the stub's two Warcraft windows become two new instances of an empty entry |
| Stub.GetInstances | crates/core/src/platform/stub.rs:8-21 | Warcraft keywords give the two Warcraft windows, zombie keywords the zombie window, anything else one window titled after the pattern; ids are distinct and the list is never empty |
| Stub.WowBeforeZombie | crates/core/src/platform/stub.rs:10-17 | the Warcraft test runs first, on the lower-cased pattern |
| Stub.StubWindow.GetRegion | crates/core/src/platform/stub.rs:45 | the region is always known |
| Stub.StubWindow.Capture | crates/core/src/platform/stub.rs:67-70 | the stub never captures pixels |
| Stub.CreateWindow | crates/core/src/platform/stub.rs:23-33 | a stub window has the given id, title "Stub-id" and a consistent 1920x1080 region at the origin |
| Darwin.AsI32 | crates/finger-core/src/platform/darwin.rs:145-148 | `as i32` keeps the value modulo 2^32 within the `i32` range, and is the identity inside it |
| Darwin.AsU32 | crates/finger-core/src/platform/darwin.rs:97 | `as u32` keeps the value modulo 2^32, and is the identity in range |
| Darwin.AsU64 | crates/finger-core/src/platform/darwin.rs:84 | `as u64` keeps the value modulo 2^64, and is the identity in range |
| Darwin.Half | crates/finger-core/src/platform/darwin.rs:152 | `i32` halving truncates toward zero |
| Darwin.TitleOf | crates/finger-core/src/platform/darwin.rs:72 | the title is the name or the owner, and is empty only when both are |
| Darwin.Selected | crates/finger-core/src/platform/darwin.rs:63-88 | no more windows are reported than the list holds |
| Darwin.GetInstances | crates/finger-core/src/platform/darwin.rs:42-92 | the loop reports `Instances`: nothing for a bad pattern or a failed query, else the selected windows in order |
| Darwin.ReportedMeans | crates/finger-core/src/platform/darwin.rs:72-83 | a window is reported exactly when it is on layer 0, has a number, and its non-empty name or owner matches |
| Darwin.SelectedSound | crates/finger-core/src/platform/darwin.rs:63-88 | every reported window comes from a matching entry of the list |
| Darwin.SelectedComplete | crates/finger-core/src/platform/darwin.rs:63-88 | every matching entry of the list is reported |
| Darwin.RegionGeometry | crates/finger-core/src/platform/darwin.rs:144-153 | without overflow the region spans the bounds exactly, with the centre at origin plus half the size |
| Darwin.RegionNegativeWidth | crates/finger-core/src/platform/darwin.rs:152 | a negative width halves toward zero |
| Darwin.RegionWraps | crates/finger-core/src/platform/darwin.rs:151 | edges that overflow `i32` wrap around |
| Darwin.KeyCode | crates/finger-core/src/platform/darwin.rs:18-31 | a known key name has a code below 2^16 and at least two characters |
| Darwin.KeyCodeNames | crates/finger-core/src/platform/darwin.rs:18-31 | every code has a primary name that maps back to it, and the other names are synonyms |
| Darwin.KeyCodeSynonyms | crates/finger-core/src/platform/darwin.rs:20-22 | enter/return, escape/esc and delete/backspace share codes; the table is case-sensitive |
| Darwin.ModifierName | crates/finger-core/src/platform/darwin.rs:262-268 | a modifier part names one of the four AppleScript modifiers |
| Darwin.Modifiers | crates/finger-core/src/platform/darwin.rs:261-269 | the collected modifiers are at most one per part, all AppleScript modifiers |
| Darwin.ModifiersIgnoreCase | crates/finger-core/src/platform/darwin.rs:262 | modifier names are case-insensitive |
| Darwin.ModifiersAppend | crates/finger-core/src/platform/darwin.rs:261-269 | the modifiers of consecutive parts are each part's modifiers, in order |
| Darwin.EscapeQuotes | crates/finger-core/src/platform/darwin.rs:287 | text without quotes is unchanged, nothing is dropped, and every quote of the result follows a backslash |
| Darwin.EscapeQuotesConcat | crates/finger-core/src/platform/darwin.rs:287 | escaping goes character by character: `"` becomes `\"`, every other character is kept |
| Darwin.EscapeQuotesReadsBack | crates/finger-core/src/platform/darwin.rs:287-288 | text without backslashes escapes as the full escape does and reads back unchanged from the literal |
| Darwin.KeyPartCases | crates/finger-core/src/platform/darwin.rs:284-292 | there is no key part exactly when the key is neither in the table nor one byte long; a table key gives `key code` and its code; any other one-byte key gives `keystroke` and its quote-escaped literal |
| Darwin.KeystrokeReadsBack | crates/finger-core/src/platform/darwin.rs:286-288 | a one-byte key outside the table becomes `keystroke` with a literal that reads back as the key, a backslash excepted |
| Darwin.WithShift | crates/finger-core/src/platform/darwin.rs:273-277 | shift is added at most once |
| Darwin.BuildKeyCommand | crates/finger-core/src/platform/darwin.rs:257-298 | the command-building code of `tap` gives `KeyCommand` |
| Darwin.FinishKeyCommand | crates/finger-core/src/platform/darwin.rs:271-298 | the rest of the command building gives `MainKeyCommand` |
| Darwin.KeyAlone | crates/finger-core/src/platform/darwin.rs:257-258 | a key spec without `+` is a main key with no modifiers |
| Darwin.KeyWithOne | crates/finger-core/src/platform/darwin.rs:257-269 | `m+key` is the main key with the modifiers `m` names |
| Darwin.LetterCommand | crates/finger-core/src/platform/darwin.rs:272-288 | a letter types as its lowercase keystroke, and an uppercase letter holds shift once |
| Darwin.KeyLowercase | crates/finger-core/src/platform/darwin.rs:286-288 | "a" is the keystroke "a" |
| Darwin.ShiftClause | crates/finger-core/src/platform/darwin.rs:294-298 | the clause for shift alone is " using {shift down}" |
| Darwin.ShiftedUppercase | crates/finger-core/src/platform/darwin.rs:275-277 | naming shift next to an uppercase letter changes nothing |
| Darwin.KeyUppercase | crates/finger-core/src/platform/darwin.rs:272-281 | "A" and "shift+A" both type a shifted "a" |
| Darwin.ShiftNamed | crates/finger-core/src/platform/darwin.rs:264 | "shift" names shift down |
| Darwin.UppercaseSpelling | crates/finger-core/src/platform/darwin.rs:278 | the lowercase of 'A' is 'a' |
| Darwin.OneModifier | crates/finger-core/src/platform/darwin.rs:261-269 | a part that names a modifier contributes exactly that modifier |
| Darwin.NamedKey | crates/finger-core/src/platform/darwin.rs:284-285 | a named key, in any case, becomes its key code and adds no shift |
| Darwin.ModifiedNamedKey | crates/finger-core/src/platform/darwin.rs:284-298 | "cmd+enter" holds command down while pressing key code 36 |
| Darwin.KeyUnknown | crates/finger-core/src/platform/darwin.rs:262-292 | a key spec gives no command exactly when its lowercased main key is neither in the table nor one byte long; `f1` gives none |
| Darwin.SplitPieces | crates/finger-core/src/platform/darwin.rs:257 | splitting a joined key spec gives its parts |
| Darwin.PlainKey | crates/finger-core/src/platform/darwin.rs:284-298 | a key without modifiers or uppercase letters has no modifier clause |
| Darwin.FindWindow | crates/finger-core/src/platform/darwin.rs:128-135 | the window found is the first in the list with the number, and none means no entry has it |
| Darwin.Updated | crates/finger-core/src/platform/darwin.rs:116-162 | a failed query or a missing window clears the region and keeps title and pid |
| Darwin.DarwinWindow.constructor | crates/finger-core/src/platform/darwin.rs:94-104 | the pattern is kept, the id is truncated to `u32` and the window is refreshed once; no script runs |
| Darwin.DarwinWindow.DoUpdate | crates/finger-core/src/platform/darwin.rs:116-162 | the refresh changes the state as `Updated` says and runs no script |
| Darwin.DarwinWindow.Update | crates/finger-core/src/platform/darwin.rs:178-180 | `update` is `do_update` |
| Darwin.DarwinWindow.Activate | crates/finger-core/src/platform/darwin.rs:182-199 | the window refreshes only when its pid is unknown, then runs the bring-to-front script when a pid is known |
| Darwin.DarwinWindow.Tap | crates/finger-core/src/platform/darwin.rs:244-314 | refresh when the pid is unknown, then run the key's script if the key names one |
| Darwin.DarwinWindow.TypeText | crates/finger-core/src/platform/darwin.rs:316-320 | one tap per character, in order |
| Darwin.TypeEffectPrefix | crates/finger-core/src/platform/darwin.rs:317-319 | typing one more character is one more tap |
| Darwin.Keystrokes | crates/finger-core/src/platform/darwin.rs:316-320 | typing gives at most one script per character, and exactly one when every character names a key |
| Darwin.TypeKeepsState | crates/finger-core/src/platform/darwin.rs:316-320 | with a known pid, typing never refreshes and runs, in order, the tap script of each character that names a key |
| Darwin.PlusNotTypeable | crates/finger-core/src/platform/darwin.rs:316-320 | typing "+" runs no script |
| Darwin.CharCommandTypesAll | crates/finger-core/src/platform/darwin.rs:316-320 | typing a character as the main key alone works for every printable ASCII character, and agrees with the key spec except for '+' |
| Darwin.BackslashBreaksLiteral | crates/finger-core/src/platform/darwin.rs:286-288 | the keystroke for a backslash leaves the AppleScript literal unterminated |
| Darwin.EscapeLiteralRoundTrip | crates/finger-core/src/platform/darwin.rs:286-288 | text that escapes backslashes and quotes reads back unchanged from the literal |
| Hint.NibbleOf | crates/finger-core/src/hint.rs:12-16 | a pixel gives a 7-bit value |
| Hint.GetNibble | crates/finger-core/src/hint.rs:6-17 | the pixel at (x, y) gives a 7-bit value |
| Hint.NibbleOfBlack | crates/finger-core/src/hint.rs:136-146 | a black pixel reads as 0, whatever its alpha |
| Hint.NibbleIgnoresLowBits | crates/finger-core/src/hint.rs:12-14 | only bits 6..5 of blue and red and bits 6..4 of green are read |
| Hint.NibbleRoundTrip | crates/finger-core/src/hint.rs:3-5 | every 7-bit value survives encoding into a pixel and reading it back |
| Hint.FoldAppend | crates/finger-core/src/hint.rs:56-107 | scanning two pieces is scanning the first then the second |
| Hint.DoneAbsorbs | crates/finger-core/src/hint.rs:100-105 | once done, the scan ignores all further pixels |
| Hint.CharCountRounds | crates/finger-core/src/hint.rs:116 | a run's count is 2n / marker width rounded to the nearest integer, halves up |
| Hint.Normalise | crates/finger-core/src/hint.rs:114-123 | the decoded text holds only printable characters |
| Hint.DecodeValues | crates/finger-core/src/hint.rs:109-129 | a decoded row is non-empty, printable, and only comes from a scan that reached `Done` |
| Hint.SampleCountMeans | crates/finger-core/src/hint.rs:54-59 | a pixel is sampled exactly when it is below min(width, 200) and its four bytes fit in the row |
| Hint.SampleInBounds | crates/finger-core/src/hint.rs:7-10 | every sampled pixel lies inside the buffer |
| Hint.Samples | crates/finger-core/src/hint.rs:56-60 | the first k samples of a row are k values |
| Hint.SamplesAt | crates/finger-core/src/hint.rs:60 | sample x of a row is the value of pixel (x, y) |
| Hint.TryDecodeRow | crates/finger-core/src/hint.rs:39-130 | `try_decode_row` gives `DecodeValues` of the row's samples |
| Hint.ScanRow | crates/finger-core/src/hint.rs:50-107 | the scanning loop ends in the FSM fold over the row's samples |
| Hint.ScanStep | crates/finger-core/src/hint.rs:62-106 | the body of the `match` is one FSM step |
| Hint.ScanEnds | crates/finger-core/src/hint.rs:56-107 | leaving the loop early at `Done` gives the same state as scanning the whole row |
| Hint.NormaliseRuns | crates/finger-core/src/hint.rs:114-123 | the normalisation loop builds `Normalise` |
| Hint.FirstRowFound | crates/finger-core/src/hint.rs:29-37 | a result comes from a searched row; no result means every searched row failed |
| Hint.DecodeHintV2 | crates/finger-core/src/hint.rs:29-37 | the row search gives the first row among 0, 3, 6, … below min(height, 60) that decodes |
| Hint.FirstRowIsFirst | crates/finger-core/src/hint.rs:31-35 | the result is that of the first decodable row |
| Hint.FoldZeros | crates/finger-core/src/hint.rs:69-71 | zeros widen the marker |
| Hint.FoldMarks | crates/finger-core/src/hint.rs:72-81 | 0x7F after zeros widens the marker and moves on to the separator |
| Hint.FoldData | crates/finger-core/src/hint.rs:79-97 | data without 0x7F is grouped into maximal runs that expand back to exactly the data |
| Hint.DecodeStep | crates/finger-core/src/hint.rs:87-97 | one more data value extends the last run or starts a new one, keeping runs maximal |
| Hint.ExtendLastRun | crates/finger-core/src/hint.rs:91-92 | lengthening the last run keeps runs maximal and adds one value |
| Hint.AppendRun | crates/finger-core/src/hint.rs:93-94 | a new run of a different value keeps runs maximal |
| Hint.FoldTrailer | crates/finger-core/src/hint.rs:88-104 | 0x7F ends the data, and more 0x7F is absorbed |
| Hint.LeadingZeros | crates/finger-core/src/hint.rs:63-71 | leading zeros open the marker with one unit of width each |
| Hint.MarkerThenData | crates/finger-core/src/hint.rs:63-86 | after the marker `0x00×z, 0x7F×m` the data is scanned with marker width z + m |
| Hint.Strip | crates/finger-core/src/hint.rs:56-107 | a complete strip finishes with marker width z + m and the run-length grouping of its data |
| Hint.StripUnclosed | crates/finger-core/src/hint.rs:109-111 | without the closing 0x00 the row gives nothing |
| Hint.DataThenTrailer | crates/finger-core/src/hint.rs:87-104 | data and then the trailer leave the scan waiting for the closing 0x00 |
| Hint.UnfinishedDecodesNothing | crates/finger-core/src/hint.rs:109-111 | a scan that never reaches `Done` gives nothing |
| Hint.End1Waits | crates/finger-core/src/hint.rs:99-104 | after the trailer, anything but 0x00 is absorbed |
| Hint.TrailerThenNoise | crates/finger-core/src/hint.rs:88-104 | one 0x7F ends the data, and any values short of 0x00 after it leave the scan waiting in `End1` |
| Hint.JunkKeepsStart | crates/finger-core/src/hint.rs:63-68 | before the first 0x00 the scan stays in `Start` |
| Hint.JunkPrefix | crates/finger-core/src/hint.rs:63-68 | values before a row's first 0x00 do not change how it decodes |
| Hint.StartResyncs | crates/finger-core/src/hint.rs:63-76 | the width left by a broken marker is forgotten at the next 0x00 |
| Hint.MarkerBroken | crates/finger-core/src/hint.rs:69-77 | a marker broken by a value other than 0x00 and 0x7F returns the scan to `Start`, and the row decodes as what follows the break |
| Hint.ZeroRow | crates/finger-core/src/hint.rs:109-111 | a row of zeros never decodes |
| Hint.StripExample | crates/finger-core/src/hint.rs:39-130 | the strip of 5 zeros, 5 separators, 10 data pixels, 5 separators and 5 zeros decodes to two copies of the value |
| Hint.StripOneValue | crates/finger-core/src/hint.rs:39-130 | a one-value strip decodes to round(2d / (z + m)) copies, at least one, when printable, and to nothing otherwise |
| Hint.DecodeOneRun | crates/finger-core/src/hint.rs:109-129 | a finished scan with one run decodes to that run's text |
| Hint.OneValueScan | crates/finger-core/src/hint.rs:56-107 | a one-value strip scans to `Done` with that single run |
| Hint.FinishOneRun | crates/finger-core/src/hint.rs:109-129 | finishing one run gives its repeated printable text |
| Hint.GroupedVaries | crates/finger-core/src/hint.rs:91-95 | two or more maximal runs never expand to a constant sequence |
| Hint.GroupedSingle | crates/finger-core/src/hint.rs:91-95 | maximal runs of one repeated value are a single run |
| Logger.FileLine | crates/core/src/logger.rs:59-63 | the file line starts `[ts] [level] `, ends with the message, and holds `[prefix] ` between them exactly when there is a prefix |
| Logger.TuiLineSplits | crates/core/src/logger.rs:66 | splitting a UI record into five fields gives back the fields, even when the message holds separators |
| Logger.DigitsHoldNoSeparator | crates/core/src/logger.rs:66 | the printed colour index holds no separator |
| Logger.Logger.constructor | crates/core/src/logger.rs:8 | before `init` there is no logger |
| Logger.Logger.Init | crates/core/src/logger.rs:21-34 | the first `init` makes an empty file with no UI sender and no prefixes; later calls change nothing |
| Logger.Logger.SetTuiSender | crates/core/src/logger.rs:37-42 | the UI channel is wired once the logger exists, and nothing else changes |
| Logger.Logger.RegisterPrefix | crates/core/src/logger.rs:46-51 | a prefix's colour is set or overwritten once the logger exists |
| Logger.Logger.PrefixColor | crates/core/src/logger.rs:91-94 | a prefix's colour is the registered one, else 0 |
| Logger.Logger.WriteLog | crates/core/src/logger.rs:55-75 | once the logger exists, one file line and one UI record when wired; before `init` nothing |
| Logger.Logger.Info | crates/core/src/logger.rs:77-79 | an INFO line with no prefix and colour 0 |
| Logger.Logger.Warn | crates/core/src/logger.rs:81-83 | a WARN line with no prefix and colour 0 |
| Logger.Logger.Error | crates/core/src/logger.rs:85-87 | an ERROR line with no prefix and colour 0 |
| Logger.Logger.InfoP | crates/core/src/logger.rs:90-96 | an INFO line with the prefix and its registered colour |
| Logger.Logger.WarnP | crates/core/src/logger.rs:98-104 | a WARN line with the prefix and its registered colour |
| Logger.Logger.ErrorP | crates/core/src/logger.rs:106-112 | an ERROR line with the prefix and its registered colour |
| Ui.SatSub | crates/tui/src/ui.rs:143 | saturating subtraction stops at zero |
| Ui.PrefixColor | crates/tui/src/ui.rs:181-185 | colour index 1 is dark gray, 2 light blue, anything else white |
| Ui.Fields | crates/tui/src/ui.rs:169-179 | a parsed record's colour index fits a `u8` |
| Ui.LevelTag | crates/tui/src/ui.rs:199-207 | a level tag is shown exactly for ERROR and WARN |
| Ui.PrefixSpans | crates/tui/src/ui.rs:210-213 | prefix spans appear exactly when there is a prefix |
| Ui.Render | crates/tui/src/ui.rs:189-218 | a record renders as the dim timestamp, a space, the level tag, the prefix spans and the message in the prefix colour |
| Ui.FieldsFallback | crates/tui/src/ui.rs:169-173 | a line is read as plain text exactly when it holds fewer than four separators |
| Ui.JoinOccurrences | crates/core/src/logger.rs:66 | joining separator-free pieces puts exactly one separator between neighbours |
| Ui.JoinOccurrencesAtLeast | crates/core/src/logger.rs:66 | joining pieces puts at least one separator between neighbours |
| Ui.ParseFormatted | crates/tui/src/ui.rs:168-219 | the UI reads back every field the logger formats, and renders that record |
| Ui.RenderText | crates/tui/src/ui.rs:189-218 | a record's text is timestamp, space, level tag, prefix and space, message |
| Ui.LineTextAppend | crates/tui/src/ui.rs:218 | the text of joined spans is the joined texts |
| Ui.LogWindow | crates/tui/src/ui.rs:143-148 | the shown lines fill the panel's inner height, or all lines when fewer, ending scroll lines before the newest, capped so the panel stays full |
| Ui.LogWindowMonotone | crates/tui/src/ui.rs:145-148 | scrolling back never moves the window forward |
| Ui.LogWindowEnds | crates/tui/src/ui.rs:145-148 | at offset 0 the newest line shows; fully scrolled back, the oldest |
| Ui.VisibleLogs | crates/tui/src/ui.rs:143-152 | the panel shows the parsed lines of the window, oldest first |
| Ui.MapLines | crates/tui/src/ui.rs:149-152 | each message becomes one line, in order |
| Ui.BannerPad | crates/tui/src/ui.rs:123-126 | the padding centres the label, the right side at most one wider |
| Ui.CenteredBanner | crates/tui/src/ui.rs:123-127 | the banner is the label between spaces, as wide as the bar or the label |
| Ui.StatusText | crates/tui/src/ui.rs:92-98 | an instance row shows its error if any, else its status if any, else nothing |
| Ui.StatusColor | crates/tui/src/ui.rs:86-90 | the status is red exactly when there is an error |
| App.ScrollRoundTrip | crates/tui/src/app.rs:53-59 | scrolling back and forward by the same amount returns to the same offset, short of saturation |
| App.EnabledNames | crates/tui/src/app.rs:80-83 | no more names are saved than there are entries |
| App.EnabledNamesMembers | crates/tui/src/app.rs:80-83 | a name is saved exactly when some enabled entry has it |
| App.Flipped | crates/tui/src/app.rs:77-79 | only the selected entry's flag flips, and nothing changes out of range |
| App.FlippedTwice | crates/tui/src/app.rs:77-79 | flipping twice restores the entries |
| App.StartStopNext | crates/tui/src/app.rs:92-96 | Running goes to Stopping and Stopped to Running; Stopping does nothing |
| App.App.constructor | crates/tui/src/app.rs:20-39 | the first entry is selected and the log is shown, empty and at its newest line |
| App.App.DrainLogs | crates/tui/src/app.rs:41-51 | every pending line moves, in order, to the end of the log |
| App.App.ScrollLogUp | crates/tui/src/app.rs:53-55 | the offset grows, saturating |
| App.App.ScrollLogDown | crates/tui/src/app.rs:57-59 | the offset shrinks, stopping at 0 |
| App.App.MoveUp | crates/tui/src/app.rs:61-65 | the previous entry is selected, never below the first |
| App.App.MoveDown | crates/tui/src/app.rs:67-72 | the next entry is selected, never past the last |
| App.App.ToggleSelected | crates/tui/src/app.rs:74-87 | the selected flag flips, the enabled names are saved, and `Toggle` is sent |
| App.App.StartStop | crates/tui/src/app.rs:89-99 | the run state moves on with one `StartStop` sent; while stopping nothing happens |
| App.App.RestartSelected | crates/tui/src/app.rs:101-103 | `Restart` is sent for the selected entry |
| App.App.ToggleLog | crates/tui/src/app.rs:105-107 | the log panel's visibility flips |
| App.App.Quit | crates/tui/src/app.rs:109-112 | `Quit` is sent and the surface is marked for exit |
| LegacyApp.App.constructor | crates/finger-tui/src/app.rs:15-29 | the first entry is selected and the log is shown and empty |
| LegacyApp.App.DrainLogs | crates/finger-tui/src/app.rs:31-35 | every pending line moves, in order, to the end of the log |
| LegacyApp.App.MoveUp | crates/finger-tui/src/app.rs:37-41 | the previous entry is selected, never below the first |
| LegacyApp.App.MoveDown | crates/finger-tui/src/app.rs:43-48 | the next entry is selected, never past the last |
| LegacyApp.App.ToggleSelected | crates/finger-tui/src/app.rs:50-52 | only `Toggle` is sent |
| LegacyApp.App.ToggleLog | crates/finger-tui/src/app.rs:54-56 | the log panel's visibility flips |
| LegacyApp.App.Quit | crates/finger-tui/src/app.rs:58-61 | `Quit` is sent and the surface is marked for exit |
| Confirm.AddU16 | crates/tui/src/confirm.rs:83-84 | `u16` addition is exact when it does not overflow |
| Confirm.CenteredRectInside | crates/tui/src/confirm.rs:82-86 | on screen, the rectangle has the clipped size, lies inside the area and is centred, the right margin at most one wider |
| Confirm.CenteredRectWraps | crates/tui/src/confirm.rs:83 | at the screen's edge the column wraps |
| Confirm.ConfirmDialog.constructor | crates/tui/src/confirm.rs:15-20 | a new dialog selects No |
| Confirm.ConfirmDialog.Toggle | crates/tui/src/confirm.rs:22-24 | toggling flips between Yes and No and keeps the message |

## Left out

- Threads, mutexes, sleeps and `Instant` are not modelled. Each lock is a plain heap object updated by one method at a time. Keys pressed while an agent ticks are the `arrivals` of the pass, each applied in full (its write, then its send) before the next step; the saving of settings in `toggle_selected` is not part of an arrival; the window lists (`live`) are one function for a whole call of `Orchestrator.Orchestrator.Iterate`, so every `Toggle` drained in one iteration sees the same windows.
- Orchestrator.Orchestrator.Iterate: the clock is one value `now` for the whole iteration, while the source reads `Instant::now()` for each eligibility test (crates/core/src/orchestrator.rs:243) and for each new cooldown (line 275); the `Instant + Duration` overflow that would panic at line 275 is not modelled.
- Orchestrator.Orchestrator.DispatchOne: a Lua cooldown is any `nat`; the `ms as u64` casts of crates/core/src/lua_rt.rs:130-131, which saturate negative and oversized numbers, are not modelled, because `tick` itself is the oracle `run`.
- Orchestrator.Orchestrator.ProcessCommands: the log lines of `process_commands` (crates/core/src/orchestrator.rs:96, 127, 138, 155, 159, 168, 185, 193) and of the tick error (line 268) are not modelled; the logger is modelled on its own in `logger.dfy`.
- Discovery.LoadBots: the error logged for a bot whose metadata fails to load (crates/core/src/orchestrator.rs:65) is not modelled; the bot is skipped as in the source.
- Darwin.GetInstances and Darwin.DarwinWindow.Tap: the warnings and info lines logged at crates/finger-core/src/platform/darwin.rs:47, 56, 85 and 290 are not modelled.
- The Lua runtime (`LuaBot::new`, `load_meta`, `tick`, `get_status`, `reset`, `stop`, `set_active`, `activate`) is not modelled. It is represented by the oracles `spawn`, `run` and `meta`, and by the agent's reset count and active flag.
- The floating-point `round` of `try_decode_row` is computed exactly in integers, as (4n + w) / (2w). This is exact for runs of at most 200 pixels.
- Hint.GetNibble: the `u32` products `y * bytes_per_row` and `x * 4` are taken as unbounded. The model assumes the capture holds every row it claims (`WellFormedCapture`) and does not model an index that overflows.
- Captures, clicks (`click_relative` uses floating point and Core Graphics events), the `create_image` call and the `get_cf_*` dictionary helpers are not modelled. The window server's answer is a parameter.
- The regular expression engine is not modelled. The compiled `(?i)pattern` is a matcher function, and `None` stands for a pattern that does not compile.
- Darwin.KeyCommand: lower-casing covers ASCII letters only; Unicode case mapping of multi-byte keys is not modelled.
- Darwin.DarwinWindow.Tap and Darwin.DarwinWindow.TypeText follow the code as written. They do not use the corrected `CharCommand` or `EscapeLiteral` listed under Findings.
- `osascript` is not executed. Its scripts are recorded in the window's `launched` list, and their exit status is ignored as in the source.
- Darwin.RegionWraps: the `i32` additions of crates/finger-core/src/platform/darwin.rs:151 wrap around as in a release build; a debug build panics on overflow instead, and that panic is not modelled.
- Confirm.CenteredRectWraps: the `u16` additions of crates/tui/src/confirm.rs:83 wrap around as in a release build; a debug build panics on overflow instead, and that panic is not modelled.
- Confirm.CenteredRect does not model ratatui's own clamping in `Rect::new`, which lies outside this repository.
- Hotkeys, settings I/O, the `sleep` module, the `main` programs, the event loops and the drawing of widgets are not part of this model. The saved settings are the `savedEnabled` field of the control surface.
- The logger of the older `finger-core` crate is not part of this model; the logger of crates/core/src/logger.rs is.
- Logger.Logger.Init: the creation and truncation of the log file, and the panic when it cannot be opened, are not modelled. The file is the sequence of lines written since `init`.
- Stub.CreateWindow: the stub's log messages are not modelled.

## Findings

| source | as written | input that shows it | evidently intended | confidence | as-written member | corrected member |
|---|---|---|---|---|---|---|
| crates/finger-core/src/platform/darwin.rs:316-320 | `type_text` taps each character as a key spec, so '+' splits into two empty parts and names no key | `type_text("+")` runs no script at all | every printable character is typed, '+' included | not executed | Darwin.PlusNotTypeable | Darwin.CharCommandTypesAll |
| crates/finger-core/src/platform/darwin.rs:286-288 | only '"' is escaped inside the AppleScript string literal | `tap("\\")` runs `keystroke "\"`, whose literal never closes | backslashes are escaped as well, so every key reads back from the literal | not executed | Darwin.BackslashBreaksLiteral | Darwin.EscapeLiteralRoundTrip |
