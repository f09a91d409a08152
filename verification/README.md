# Verified models of the bot supervisor

Dafny models of the parts of the repository whose correctness is hard to see: schedulers that
give way at every `await`, state machines driven by packets and timers in any order, binary
codecs, a lazily filled cache, a lossy packet filter, a worklist validator and a two-locale
parser. `dafny verify dfyconfig.toml` checks everything.

Each module covers one component.

- `SoulFire`: the automation scheduler `SoulFireBehaviors`, a program counter at each `await`.
  `SoulFireOwnership` shows that stale ownership never leaks into a click, `SoulFireCredits`
  bounds what is sent, `SpawnerStock` runs the whole scheduler against a server whose snapshots
  are old, and `SoulFireScheduler` is the object itself.
- `NativeScheduler`, `NativeSafety`, `NativeBehaviors`: the Rust scheduler `BehaviorState`, its
  safety over all runs, and the object.
- `VarInt`, `Frames`, `Subchunk`, `SectionCache`, `Intersect`: wire formats, the block cache and
  the ray test of the Bedrock button.
- `PacketFilter`, `PacketReader`: the filter for dropped items and the bounded reader.
- `Supervisor`, `ReconnectPolicy`, `BufferedWriter`, `LiveCam`: reconnection, the coalescing log
  writer and the camera multiplexer.
- `BedrockInventory`: containers, transfers and their acknowledgements.
- `Notes`, `NoteTransform`: the note validator and the link transform.
- `Money`: sale earnings.

How the state machines are modelled: a value `State`, a function `Step` for one event (a call, a
timer, a packet, or the end of an awaited call), and `At`, the state after the first events of a
run. Results are stated for every run and every moment of it. A stretch of code between two
awaits reads the clock once.

Next to it stands a class with the source's fields and methods (`SoulFireBehaviors` of
`backend/src/soulfire/behaviors.ts`, `BehaviorState` of `backend/rust-bot/src/behaviors.rs`,
`MinecraftClient` of `backend/src/minecraft/MinecraftClient.ts`, `Writer` of
`backend/src/logging/bufferedWriter.ts`, `LiveCamStreams` of `backend/src/soulfire/liveCam.ts`,
`Inventory` of `backend/src/bedrock-bot/inventory.ts`). Its handlers are written out statement by
statement, and each one's contract gives the object's whole new state as the step of the model.
`Valid` says that the object is where a run of events leads that began with a new object, and
`ValidIsSafe` and `Handle` state what follows for its fields. The table below names these two and
not the handlers they stand on.

`SpawnerStock` asks four things of the server and the client: snapshots reach the bot in the
order of what they show, however late; every menu that opens has an id of its own, which clicks
carry (`docs/SOULFIRE-MIGRATION.md:81`); a click counts only while its menu is open; and while a menu is open, stacks leave it only by the bot's
own clicks there. Anything may happen otherwise: menus open and close at any time, stacks come
and grow, a click may fail and still land, resets, teleports and new commands may come between.

## Where the code and what is promised of it differ

The models follow the code. Five promises hold only under a condition, and for each the exact
condition is proved together with what goes wrong without it.

- A task of `SoulFireBehaviors` tells menus apart by truth, so an empty menu id counts as none:
  a click names the menu first bound for exactly the ids that are not empty
  (`FirstBoundMenuSticks`).
- A credit is taken when the chat call has come back. Counted by completion, four commands can
  fall into one millisecond; the bound of three plus one per 1500 ms holds by completion only if
  chat calls take no time, and by admission always (`CompletionBoundNeedsPromptChat`,
  `SentBound`). A call that takes a while stretches the window by as much (`LatencyBound`).
- The buffered writer leaves a queue unattended for a batch size of 0 or less
  (`QueueIsAttended`).
- An item spawn that reuses the id of a live entity leaves that entity standing behind the
  filter; without such a reuse, and only then, the worlds agree (`FilteringCommutes`).
- The ray test drops direction components below 1e-8. It misses boxes that a ray in a given
  direction reaches exactly when such a component is not zero (`InexactIffTiny`).

## Model

| member | source | states |
|---|---|---|
| SoulFireOwnership.ClicksAreOwned | backend/src/soulfire/behaviors.ts:147-409 | In every run, with any interleaving at the awaits: the task of a click is live, has been live at every moment since it was made, and is bound to the menu the click names; a menu it was bound to before is that same menu. |
| SoulFireOwnership.GoneForGood | backend/src/soulfire/behaviors.ts:147-147 | A task that has been reset, cleared or replaced never comes back in the rest of the run, and no later click is for it. |
| SoulFireOwnership.LiveSinceMade | backend/src/soulfire/behaviors.ts:251-409 | A task that is live has been live since it was made and keeps the (non-empty) menu it was bound to. |
| SoulFireOwnership.ForegroundIsFresh | backend/src/soulfire/behaviors.ts:213-235 | A foreground task is made only by a command that captured the generation right after its suspension, with no reset between that moment and the making. |
| SoulFireOwnership.GenerationCountsResets | backend/src/soulfire/behaviors.ts:147-147 | Two moments have the same generation exactly when no reset lies between them. |
| SoulFireOwnership.PhasesAdvance | backend/src/soulfire/behaviors.ts:375-384 | A foreground task only ever goes from dropping to selling. |
| SoulFireOwnership.FirstBoundMenuSticks | backend/src/soulfire/behaviors.ts:290-292 | Every click of every run names the menu its task was first bound to, for exactly the menu ids that are not empty. |
| SoulFireOwnership.EmptyMenuRebinds | backend/src/soulfire/behaviors.ts:290-292 | The run that shows it: a sale menu seen with an empty id binds again, and the click names the second menu. |
| SoulFireOwnership.StepKeeps | backend/src/soulfire/behaviors.ts:149-409 | Every step, from outside or of the tick, takes no task back, rebinds none, starts a foreground task only from a command that saw no reset, and clicks only for live tasks. |
| SoulFireOwnership.SellReadSound | backend/src/soulfire/behaviors.ts:251-325 | The part of the sale after its look at the inventory keeps ownership, whatever it sees. |
| SoulFireOwnership.ForegroundReadSound | backend/src/soulfire/behaviors.ts:327-398 | The same for a foreground task. |
| SoulFireOwnership.CommandResumeSound | backend/src/soulfire/behaviors.ts:213-249 | The same for every await of a running command. |
| SoulFireOwnership.TurnResumeSound | backend/src/soulfire/behaviors.ts:251-398 | The same for every await of a sale or foreground turn. |
| SoulFireCredits.SentBound | backend/src/soulfire/behaviors.ts:200-211 | In every run, any window measured by the ticks that admitted its commands holds at most 3 + ceil(T / 1500 ms) non-automatic dispatches. |
| SoulFireCredits.CompletedBound | backend/src/soulfire/behaviors.ts:200-211 | Measured by when the chat call came back there is at most one more. |
| SoulFireCredits.LatencyBound | backend/src/soulfire/behaviors.ts:200-211 | Measured by when the chat calls came back, the bound holds of a window stretched by the time the first call took. |
| SoulFireCredits.PromptBound | backend/src/soulfire/behaviors.ts:200-211 | When the chat call of the first took no time, the bound holds by completion as well. |
| SoulFireCredits.CompletionBoundNeedsPromptChat | backend/src/soulfire/behaviors.ts:200-211 | The bound by completion time holds in all runs whose chat calls take at most a given time exactly when that time is 0. |
| SoulFireCredits.FourAtOnce | backend/src/soulfire/behaviors.ts:200-211 | For every positive latency a run in which four dispatches complete in one millisecond. |
| SoulFireCredits.StepPays | backend/src/soulfire/behaviors.ts:200-211 | Every step keeps the account: what was sent since any dispatch, and the credits left, were there or have been earned since. |
| SoulFireScheduler.SoulFireBehaviors.Handle | backend/src/soulfire/behaviors.ts:88-409 | Any event, under the busy lock, keeps the object on a run of the model: a click that goes out is for a task that was live and still is, in the menu it is bound to; no task that was gone comes back; a foreground task is started only by a command that has seen no reset since its suspension; and the generation counts the resets. |
| SoulFireScheduler.SoulFireBehaviors.ValidIsSafe | backend/src/soulfire/behaviors.ts:200-211 | Whenever the object rests the two tasks are distinct, and, while the clock has not gone back, between 0 and 3 credits are left and every window of what it has sent keeps the bound. |
| SpawnerStock.NeverTheLastStack | backend/src/soulfire/behaviors.ts:327-398 | In every run of the scheduler against a server, cleanings interrupted with a click on its way and begun again included: whenever a drop lands it takes its stack, or some of it, and touches no other, and if a spawner type was configured when it was clicked, another stack of its item stays. |
| SpawnerStock.OneDropAtATime | backend/src/soulfire/behaviors.ts:327-398 | Whenever the bot drops or presses in a menu, in whichever cleaning, the drop made in that menu before has landed. |
| SpawnerStock.GoneMeansLanded | backend/src/soulfire/behaviors.ts:364-374 | A pending stack is taken for gone only when a snapshot shows the container after its drop has landed. |
| SpawnerStock.NextKeeps | backend/src/soulfire/behaviors.ts:213-398 | Every step of scheduler and server keeps what a task may know of its menu, and keeps touched menus apart from a new task. |
| SpawnerStock.LookSeparates | backend/src/soulfire/behaviors.ts:337-340 | A command that has looked tells every menu the bot ever clicked in from the next one: it is the menu it saw, or gone for good. |
| SpawnerStock.BotFollows | backend/src/soulfire/behaviors.ts:149-409 | The bot of such a run is the scheduler after exactly the events that reached it, so every result about runs holds in it. |
| SpawnerStock.TurnDrops | backend/src/soulfire/behaviors.ts:355-384 | A turn of a dropping task goes on waiting, or the stack it waited for is seen to have gone; what it drops is a stack in sight, with a type configured one of several of its item. |
| SpawnerStock.TurnSells | backend/src/soulfire/behaviors.ts:385-395 | A selling task never drops and never turns back. |
| SpawnerStock.AnotherBeside | backend/src/soulfire/behaviors.ts:376-378 | A stack chosen from a type with more than one stack has another stack of the same item in the container. |
| NativeSafety.OneAtATimeInOrder | backend/rust-bot/src/behaviors.rs:341-401 | In every run: a foreground task never runs beside an auto-sell cycle, and the manual commands sent followed by those queued are exactly those asked for. |
| NativeSafety.CommandBound | backend/rust-bot/src/behaviors.rs:50-73 | Any window of length T holds at most 3 + T / 1.5 s manual and automatic commands together. |
| NativeSafety.CounterStaysLow | backend/rust-bot/src/behaviors.rs:40-47 | A server counter that loses a point every 50 ms tick and gains 20 per command stays between 0 and 60, wherever the ticks fall. |
| NativeSafety.CounterSince | backend/rust-bot/src/behaviors.rs:40-47 | The counter equals 20 for each command since it was last at zero, less the ticks since. |
| NativeSafety.ClicksAreDisciplined | backend/rust-bot/src/behaviors.rs:1244-1376 | Over every inventory: each automatic click is in the owned menu with the recorded id and session, on an occupied player slot; slots ascend within a cycle; any two clicks are 100 ms apart. |
| NativeSafety.BatchLeavesOne | backend/rust-bot/src/behaviors.rs:1054-1064 | A drop batch with a type configured throws all matching slots but one, and nothing else. |
| NativeSafety.PressIsNoStock | backend/rust-bot/src/behaviors.rs:1654-1676 | The slot pressed to sell is a present one whose text names selling and whose item is on neither configured list. |
| NativeSafety.RunIsBounded | backend/rust-bot/src/behaviors.rs:981-993 | A spawner run makes at most 200 steps with clicks, against any settings, looks and times. |
| NativeSafety.DeadlineEnds | backend/rust-bot/src/behaviors.rs:961-993 | The first turn from the deadline on that finds an inventory ends the run, whatever that shows. |
| NativeSafety.RunEndsAtDeadline | backend/rust-bot/src/behaviors.rs:629-706 | In every run of the scheduler: the first usable tick from the deadline on tears the spawner run down. |
| NativeSafety.StepKeeps | backend/rust-bot/src/behaviors.rs:629-1500 | Every tick, packet, chat, configuration and world event keeps exclusion, order, budget and click discipline. |
| NativeSafety.RefillPays | backend/rust-bot/src/behaviors.rs:63-68 | Refilling keeps the account of every window. |
| NativeSafety.ClickKeeps | backend/rust-bot/src/behaviors.rs:1318-1376 | A click keeps the discipline of all clicks before it. |
| NativeBehaviors.BehaviorState.Handle | backend/rust-bot/src/behaviors.rs:328-1500 | Any event that is no earlier than the one before keeps the object on a run of the model and safe; a usable tick from its deadline on ends a spawner run. |
| NativeBehaviors.BehaviorState.ValidIsSafe | backend/rust-bot/src/behaviors.rs:341-1376 | Whenever the object rests: no foreground task beside a sale; manual commands sent and queued are those asked for, in order; every window of what was sent keeps the budget, and the counter of the server stays between 0 and 60; and all clicks are disciplined. |
| PacketFilter.FastIsSlow | backend/rust-bot/src/afk_network.rs:146-197 | Dropping before decoding passes on the same packets and ignores the same ids as always decoding; the two differ exactly in not noticing a malformed packet of an ignored entity. |
| PacketFilter.StreamFastIsSlow | backend/rust-bot/src/afk_network.rs:311-351 | The same over whole streams of bundled and single packets. |
| PacketFilter.FilteringCommutes | backend/rust-bot/src/afk_network.rs:160-197 | After every prefix the world behind the filter is the unfiltered world without its items, if and only if no item spawn takes over the id of a live entity that is no item. |
| PacketFilter.HandledWorld | backend/rust-bot/src/afk_network.rs:311-463 | So what a reader has handled, however it was cut, makes the unfiltered world without its items. |
| PacketFilter.KeptSimulates | backend/rust-bot/src/afk_network.rs:162-197 | One packet keeps the two worlds together. |
| PacketFilter.ReuseSplits | backend/rust-bot/src/afk_network.rs:164-168 | A reused id keeps its old entity behind the filter only. |
| PacketFilter.ForgottenIsDifference | backend/rust-bot/src/afk_network.rs:174-177 | Removing entities forgets exactly the ids it names. |
| PacketFilter.HandleSplits | backend/rust-bot/src/afk_network.rs:494-590 | Handling a stream in two pieces is handling it in one. |
| PacketReader.ItemFilter.SkipRaw | backend/rust-bot/src/afk_network.rs:146-158 | Of the packets that can be decoded the fast path skips exactly those that show an ignored entity, and decoding would keep each of these back as well and leave the same ids ignored. |
| PacketReader.ItemFilter.RetainIds | backend/rust-bot/src/afk_network.rs:174-177 | The retained ids and the ids still ignored, after the loop over the packet. |
| PacketReader.ItemFilter.ProcessPacket | backend/rust-bot/src/afk_network.rs:311-351 | A unit is handled whole and in order; it counts when something was passed on or was malformed. |
| PacketReader.Connection.ReadPackets | backend/rust-bot/src/afk_network.rs:494-590 | An update handles a prefix of what is ahead, in order and exactly once, within 256 counting units and 8192 reads, nothing after a goodbye; it asks to be resumed exactly when a limit stopped it. |
| PacketReader.Connection.Take | backend/rust-bot/src/afk_network.rs:311-351 | A unit is handled once, and a refused bundle ends the connection. |
| Supervisor.OneReasonAtATime | backend/src/minecraft/MinecraftClient.ts:138-328 | In every interleaving: at most one of live controller, reconnect timer and restart timer; hang timer and watchdog only with a live controller; the status never waits for nothing; after a manual stop there is none of them. |
| Supervisor.QuietAfterDisconnect | backend/src/minecraft/MinecraftClient.ts:147-156 | After a disconnect nothing is spawned until the user connects or restarts. |
| Supervisor.RespawnWaits | backend/src/minecraft/MinecraftClient.ts:521-546 | Each automatic respawn comes at least 15 s after the failure it answers, with nothing spawned between. |
| Supervisor.ReconnectHasFailure | backend/src/minecraft/MinecraftClient.ts:521-546 | A reconnect timer stands for the failure event that set it. |
| Supervisor.StaleIsIgnored | backend/src/minecraft/MinecraftClient.ts:243-300 | A run ends where it ends without any of the events that came from superseded controllers, however many and wherever they stand. |
| Supervisor.SupersededForGood | backend/src/minecraft/MinecraftClient.ts:243-300 | A controller that is no longer the current one never is again. |
| Supervisor.SilenceEnds | backend/src/minecraft/MinecraftClient.ts:639-651 | An online bot is recycled by a watchdog tick exactly when it has been silent for more than 45 s and no control outage lease runs. |
| Supervisor.StepKeeps | backend/src/minecraft/MinecraftClient.ts:138-651 | Every call, timer and controller event keeps the invariant, spawns at most one controller and only where it may. |
| Supervisor.MinecraftClient.Handle | backend/src/minecraft/MinecraftClient.ts:138-651 | Any event keeps the object on a run of the model with one reason at a time; an event of a superseded controller changes no field; at most one controller is spawned, only by a connect, a restart or a reconnection that was not stopped, and by the last at least 15 s after its failure. |
| Supervisor.MinecraftClient.ValidIsSafe | backend/src/minecraft/MinecraftClient.ts:138-651 | Whenever the object rests: at most one of controller, reconnect timer and restart timer, a watchdog exactly with a controller, and a status that fits. |
| ReconnectPolicy.WaitBounds | backend/src/minecraft/reconnectPolicy.ts:7-18 | Every delay lies between 15 s and 5 minutes, after a login rejection at 60 s or more, otherwise at 120 s or less. |
| ReconnectPolicy.WaitsGrow | backend/src/minecraft/reconnectPolicy.ts:7-18 | While no connection is stable, delays for the same reason never shrink, whatever failures come between. |
| ReconnectPolicy.Backoff.Delay | backend/src/minecraft/reconnectPolicy.ts:7-18 | The counters and the delay, a stable connection starting afresh. |
| BufferedWriter.ExactlyOnce | backend/src/logging/bufferedWriter.ts:2-45 | In every interleaving: one write in flight at most; items settle in the order in which they came, each once; the resolved ones are what is stored, in this order; an item is rejected only when its own write failed. |
| BufferedWriter.AcceptedAscends | backend/src/logging/bufferedWriter.ts:15-25 | The stored sequence ascends and holds exactly the items that were resolved. |
| BufferedWriter.QueueIsAttended | backend/src/logging/bufferedWriter.ts:8-13 | A queue that is not empty always has a timer or a run, for exactly the batch sizes from 1 on. |
| BufferedWriter.NobodyAttends | backend/src/logging/bufferedWriter.ts:27-37 | With batch size 0 the timer fires, takes nothing and is not set again. |
| BufferedWriter.FlushWaits | backend/src/logging/bufferedWriter.ts:46-54 | When a flush has returned, everything enqueued before it has settled. |
| BufferedWriter.FlushRemembers | backend/src/logging/bufferedWriter.ts:46-54 | What a flush waits for is what had been enqueued when it was called. |
| BufferedWriter.StepKeeps | backend/src/logging/bufferedWriter.ts:2-56 | Every step keeps the order, the records and the counts. |
| BufferedWriter.Writer.ValidIsSafe | backend/src/logging/bufferedWriter.ts:2-56 | Whenever the object rests, after any calls, timers and writes: one write in flight at most, items settled in their order, the stored ones those resolved, rejected ones refused by themselves, returned flushes kept, and a queue that is attended if the batch size is positive. |
| LiveCam.OneIterationPerAccount | backend/src/soulfire/liveCam.ts:28-73 | In every interleaving at most one stream of an account is between its start and its end. |
| LiveCam.StartsAfterAllBefore | backend/src/soulfire/liveCam.ts:30-39 | A stream iterates only when every earlier stream of its account is done. |
| LiveCam.CloseEndsAll | backend/src/soulfire/liveCam.ts:82-86 | When the streams current at a close are done, every stream there was is closed. |
| LiveCam.StepKeeps | backend/src/soulfire/liveCam.ts:28-86 | Every event keeps the chain of predecessors and the index of current streams. |
| LiveCam.LiveCamStreams.Subscribe | backend/src/soulfire/liveCam.ts:28-36 | A viewer joins a stream that is not aborted: the current one or a new one behind it. |
| LiveCam.LiveCamStreams.ValidIsSafe | backend/src/soulfire/liveCam.ts:28-73 | Whenever the object rests at most one stream of an account is between its start and its end, and an iterating one has only closed ones before it. |
| LiveCam.LiveCamStreams.Close | backend/src/soulfire/liveCam.ts:82-86 | All streams are aborted, those no longer current included. |
| BedrockInventory.TransfersAreSafe | backend/src/bedrock-bot/inventory.ts:241-290 | Whatever server and player do, a transfer is asked for with none outstanding, from an occupied slot into a free one of an owned container with known contents. |
| BedrockInventory.IdsDescend | backend/src/bedrock-bot/inventory.ts:261-262 | Request ids strictly decrease. |
| BedrockInventory.LateAnswersAreIgnored | backend/src/bedrock-bot/inventory.ts:209-239 | An answer to any transfer but the one outstanding changes nothing. |
| BedrockInventory.NoTransferBeforeFullContent | backend/src/bedrock-bot/inventory.ts:86-92 | After a lost inventory packet nothing is transferred until contents of at least 36 slots have come. |
| BedrockInventory.OnlyFullContentRestores | backend/src/bedrock-bot/inventory.ts:184-193 | Nothing else makes the player inventory usable again. |
| BedrockInventory.Inventory.Handle | backend/src/bedrock-bot/inventory.ts:65-302 | Any event keeps the object on a run of the model: a transfer that goes out is safe and alone, request ids descend, and after a lost packet nothing goes out until full contents have come. |
| VarInt.StrictInvertsEncode | backend/src/bedrock-bot/packetRecovery.ts:10-23 | Reading inverts encoding for every 32-bit value, at any place of any buffer. |
| VarInt.LenientInvertsEncode | backend/src/soulfire/versions.ts:30-43 | `readVarInt` inverts `varInt` for every signed 32-bit value. |
| VarInt.ReadersAgree | backend/src/soulfire/versions.ts:35-43 | Both readers take the same bytes and agree modulo 2^32; they differ exactly on a fifth byte of 16 or more. |
| VarInt.PrefixIsIncomplete | backend/src/soulfire/versions.ts:35-43 | Every strict prefix of an encoding is incomplete for both readers. |
| VarInt.StrictIsLocal | backend/src/bedrock-bot/packetRecovery.ts:10-23 | A read looks at nothing behind its own bytes. |
| VarInt.ContinuationBits | backend/src/soulfire/versions.ts:30-34 | Every byte of an encoding but the last announces another. |
| VarInt.UnsignedVarint | backend/src/bedrock-bot/packetRecovery.ts:10-23 | The loop computes the strict reading. |
| VarInt.ReadVarInt | backend/src/soulfire/versions.ts:35-43 | The loop computes the lenient reading. |
| VarInt.WriteVarInt | backend/src/soulfire/versions.ts:30-34 | The loop writes the encoding. |
| Frames.SplitInvertsJoin | backend/src/bedrock-bot/packetRecovery.ts:25-38 | Splitting the concatenation of length-prefixed payloads returns those payloads. |
| Frames.AcceptedIffTiled | backend/src/bedrock-bot/packetRecovery.ts:25-38 | A buffer is accepted exactly when headers and payloads tile it, and that tiling is the answer. |
| Frames.SplitBedrockFrames | backend/src/bedrock-bot/packetRecovery.ts:25-38 | The loop returns this split, and nothing when it fails. |
| Subchunk.DecodeInvertsEncode | backend/src/bedrock-bot/autoButton.ts:14-56 | For every width, palette and 4096-entry section, in version 8 or 9 with one or two layers, decoding gives the first layer's ids and takes exactly the encoded length, whatever follows. |
| Subchunk.DecodeManyInvertsEncode | backend/src/bedrock-bot/autoButton.ts:188-195 | A concatenation of sections followed by anything decodes to those sections in order. |
| Subchunk.ReadIndex | backend/src/bedrock-bot/autoButton.ts:46-49 | Every index of every width, packed into 32-bit words with padding, is read back. |
| Subchunk.ReadPaletteEncoding | backend/src/bedrock-bot/autoButton.ts:31-45 | ZigZag palettes are read back. |
| Subchunk.ReadPalette | backend/src/bedrock-bot/autoButton.ts:45-45 | The loop reads this palette. |
| Subchunk.UnpackBlocks | backend/src/bedrock-bot/autoButton.ts:46-51 | The 4096 blocks, or the failure at the first index outside the palette. |
| Subchunk.ReadStorage | backend/src/bedrock-bot/autoButton.ts:35-53 | One layer, uniform or packed. |
| Subchunk.ReadSubchunk | backend/src/bedrock-bot/autoButton.ts:14-56 | The cursor loop computes the decoding, errors included. |
| Subchunk.ReadSubchunks | backend/src/bedrock-bot/autoButton.ts:188-195 | The loop over the sections of a level chunk. |
| SectionCache.BedrockAutoButton.ReadAfter | backend/src/bedrock-bot/autoButton.ts:114-274 | After any sequence of packets, prunes, resets and registry initializations the history of the cache is what these events gave it, as a function of them and of what it held; a position is known exactly when that history has a value for it, and with a registry this is the last one given since its section was loaded. |
| SectionCache.BedrockAutoButton.Handle | backend/src/bedrock-bot/autoButton.ts:114-264 | Each event gives the cache exactly what its packet says, and forgets exactly what it makes it forget. |
| SectionCache.BedrockAutoButton.Read | backend/src/bedrock-bot/autoButton.ts:272-274 | The same for the lookup at any moment. |
| SectionCache.PlainRunIsLastGiven | backend/src/bedrock-bot/autoButton.ts:181-221 | The plain position-to-block map the cache refines holds the last value given. |
| SectionCache.PutRefines | backend/src/bedrock-bot/autoButton.ts:204-221 | Writing into a lazily filled section refines writing into the plain map. |
| SectionCache.LoadedIsRepresented | backend/src/bedrock-bot/autoButton.ts:181-202 | A freshly loaded section, an all-air one included, represents what was loaded. |
| SectionCache.BedrockAutoButton.OnLevelChunk | backend/src/bedrock-bot/autoButton.ts:181-202 | A level chunk replaces its sections and prunes the far ones, or changes nothing. |
| SectionCache.BedrockAutoButton.OnSubchunk | backend/src/bedrock-bot/autoButton.ts:164-179 | Each section asked for is loaded at most once. |
| SectionCache.BedrockAutoButton.OnUpdateBlock | backend/src/bedrock-bot/autoButton.ts:204-221 | One block changes, or on overflow everything is forgotten. |
| SectionCache.BedrockAutoButton.InitializeRegistry | backend/src/bedrock-bot/autoButton.ts:146-155 | The deferred updates are written back, and no value changes. |
| SectionCache.BedrockAutoButton.RequestSections | backend/src/bedrock-bot/autoButton.ts:253-264 | Far sections are forgotten, and exactly the missing near ones asked for. |
| SectionCache.MissingAround | backend/src/bedrock-bot/autoButton.ts:256-263 | The loops name exactly the sections that are neither held nor freshly asked for. |
| SectionCache.PlaceOfPos | backend/src/bedrock-bot/autoButton.ts:207-219 | Section and index determine the position. |
| Intersect.IntersectRay | backend/src/bedrock-bot/autoButton.ts:61-73 | For a well-formed box: null exactly when no time in [0, 6] puts the tested ray in the box, otherwise the least such time, with the face it comes through. |
| Intersect.InexactIffTiny | backend/src/bedrock-bot/autoButton.ts:65-65 | Some ray in a direction reaches a box at the end of its reach that the test sees it miss, exactly when a component of the direction is not zero but below 1e-8; without such a component the tested ray is in a box whenever the given one is. |
| Intersect.Slab | backend/src/bedrock-bot/autoButton.ts:63-71 | One axis narrows the interval to the times between its planes. |
| Notes.IsNoteDocument | backend/src/notes/schemas.ts:18-70 | The explicit-stack validator terminates and accepts exactly the documents of the recursive grammar of depth 64, which knows no order of visits. |
| Notes.IsNoteDocumentInAnyOrder | backend/src/notes/schemas.ts:18-70 | The same whichever pending node is looked at next. |
| Notes.CheckNode | backend/src/notes/schemas.ts:24-66 | The guards of one node, the loop over its marks included, agree with the grammar of a node. |
| Notes.NormalStaysDocument | backend/src/notes/schemas.ts:72-82 | A normalized document is still a document. |
| Notes.NormalOnce | backend/src/notes/schemas.ts:72-82 | Normalizing twice is normalizing once. |
| Notes.NormalKeepsEssence | backend/src/notes/schemas.ts:72-82 | Nothing but links changes, and of these neither address nor title: shape, text and other marks stay. |
| Notes.LessWork | backend/src/notes/schemas.ts:20-66 | Pushing the children of a node in its place leaves less work. |
| Notes.PutOff | backend/src/notes/schemas.ts:62-65 | Checking a node and pushing its children says the same of the whole. |
| NoteTransform.NormalizeLinks | backend/src/notes/schemas.ts:72-82 | The worklist over the nodes, assigning marks in place, makes the normalized document. |
| NoteTransform.NormalizeMarks | backend/src/notes/schemas.ts:76-78 | The links of one node get their attributes one after the other. |
| NoteTransform.ValueIsNormal | backend/src/notes/schemas.ts:72-82 | When every node below has been normalized, so has the document. |
| Money.SaleRoundTrip | backend/src/minecraft/sellEarnings.ts:2-30 | Every amount up to 2^53 - 1 cents, written with German or English grouping after the first dollar sign of a sale message, is parsed to the cent. |
| Money.BreakdownRoundTrip | backend/src/minecraft/sellEarnings.ts:8-14 | In a message with base and bonus the total before the base is parsed, whatever the base is. |
| Money.WrittenCents | backend/src/minecraft/sellEarnings.ts:18-27 | A grouped numeral is read as the amount it was written for, in both styles. |
| Money.NumeralRun | backend/src/minecraft/sellEarnings.ts:12-14 | A written numeral is found whole and no further. |
| Money.StripText | backend/src/minecraft/sellEarnings.ts:3-3 | Text without formatting codes passes through. |
| Money.StripCode | backend/src/minecraft/sellEarnings.ts:3-3 | A formatting code vanishes with its letter. |

## Left out

- Sockets, remote procedure calls, the database, files, authentication and name resolution: an awaited call may end in any way it can end.
- Decoding of game packets and the bundle collector (not part of this model): packets and units are abstract, and the decoder is assumed to read the header that the fast path reads.
- Patterns for whole messages, titles and log texts: what they find is given with each message; only the numerals of sale messages are modelled character by character.
- Warnings, console output and diagnostics, and the timers that only space them out.
- Sneak checks, held keys, the mouse button's timing and `target`'s ray stepping: sampled or without an exact claim.
- The homes a bot returns to: whether it has one, and whether a message confirms it, is given from outside.
- Listeners that call back into the supervisor from its own events: they do not re-enter it here.
- Floating point: credits and tokens are exact, distances are reals, and money is in exact cents, without the rounding of doubles near 2^53 cents.
- Bit operators are written as arithmetic on unbounded integers with explicit 8, 32 and signed 32-bit ranges.
- Fractional block positions: a position of the cache is a triple of integers.
- The order of keys in JSON objects and duplicate keys, which parsing removes; numbers are reals.
- White space in manual commands of the native scheduler is that of ASCII.
- The fingerprint of a spawner's stock is a list here, not the string joined from it.
- Objects that are compared by identity (sales, tasks, streams, controllers) carry serial numbers.
- What a sale or spawner turn decides from one look at the inventory is a function in both schedulers; the methods carry its outcome out in place.
- The titles remembered for Bedrock menu positions: the remembered title comes with each opened menu. The multiplier scan only ever closes a menu.
- Camera frames themselves, and viewers whose callbacks fail other than on a frame.
- `installBedrockFrameValidation` and the recovery counters, protocol selection, `versionCatalog`, the frontend, routes, access control and build scripts.
- SpawnerStock.NeverTheLastStack: asks of the server and client the four things named above, and promises no second stack for drops clicked without a spawner type, which empty the container on purpose.
- SoulFireScheduler.SoulFireBehaviors.ValidIsSafe: the credits are promised only while the clock has not gone back, as the source reads a clock that may.
- Intersect.IntersectRay: exact for the direction without its components below 1e-8, which the code drops.
