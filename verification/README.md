# A verified model of the wireless fan controller

The controller drives fan groups over a radio dongle that may fail at any moment. Once a second a
loop sends a heartbeat, polls the dongle for the devices it hears, drops those gone quiet, judges
whether the dongle is lost, drives every reachable fan group, tries to reconnect a lost dongle,
flushes two rate-limited logs and publishes a snapshot. This project models that loop, the device
tracker under it, the duty arithmetic, the host and worker hand-off around it, the transport and
parsers below it, and the file in which a plugin remembers groups; and proves what they keep over
runs of any length, whatever the dongle answers.

## How the model is built

- `Types`, `Seqs`: bytes, addresses, instants in nanoseconds, filtering and sorting.
- `Speed`: percentages to duties, model floors, the CL filter, reversal, slots. `Prepare` edits and
  reverses an array in place; `Prepared` says slot by slot what comes out.
- `Debounce`, `Groups`, `DeviceTracker`: the voter, one group, the tracker. The class
  `DeviceTracker` updates its two lists in place; each method's new state is a function of the old.
  `Solo`, `History`, `SlotOrder`, `FirstHeard`, `Unacknowledged`, `Roster` then state what whole
  runs of those operations make of identity, shape, both orders, slots and counts, from the history
  alone.
- `Heartbeat`, `Recovery`, `FailLog`, `ChangeLog`, `FailText`: the engine's four small machines,
  each with its own history, and the texts the failure log is keyed by.
- `Radio`, `Engine`, `Core`: the dongle as an arbitrary function of the call's number, the engine's
  state and phases as functions on it, and the class `Core`, which has the program's own fields and
  loops. `Core.Holds` ties the fields to a state `World`, events already taken included; every
  method carries it from a state to the state its phase's function gives.
- `EngineHistory`, `EngineTrace`, `FailTrace`, `Drive`, `EngineTick`, `TickTheorems`, `Ready`,
  `Shutdown`, `Orders`, `Standing`, `LogNames`, `Snapshots`, `Telling`, `Notices`, `Journal`, `Lines`,
  `Runs`: theorems on single ticks from any reachable state and on whole runs of requests, ticks and
  stops: what is sent, field by field (`Orders`), what is published (`Snapshots`), what is logged
  (`Lines`, from `Journal`), and when. A state is reachable when
  `EngineHistory.Consistent` holds of it; `EngineHistory.RunFits` shows that of every run.
- `Worker`: the worker's thread as a loop over one `Core`, which ends holding the run of its steps.
- `Occasions`: runs of the engine that reach the failing side of each promise it keeps only on a
  condition. `QuietTicks` is what they rest on: ticks whose drive finds nothing to do, in closed form.
- `Protocol`: the queue, the stop flag and the worker as a state machine over interleaved moves.
- `Frame`, `Discovery`, `Dongle`: frames, radio payloads, discovery replies, and the port-level
  loops, over ports whose far end may do anything.
- `GroupText`, `GroupMemory`: the remembered-groups file as text, and the memory that keeps it.

Time never runs backwards between steps (`Engine.Timed`, `History.Timed`); nothing else is assumed
of it. Counters are unbounded.

Where the code does less than its documentation suggests, the model follows the code and the exact
condition is proved:

- One line a minute per kind of failure is not quite kept, because a flush drops an entry right
  after printing its count. The lines of one kind are a minute apart exactly when it never fails
  less than a minute after a flush printed its count, with no failure of it in between
  (`FailLog.OneLineAMinuteIff`, on runs of the engine `Runs.OneLineAMinuteIff`). Polls that fail at
  0, 1 and 61 seconds and succeed at 60 give two lines a second apart (`Occasions.LinesASecondApart`).
- The stop publishes without sweeping, so a group silent for more than 15 seconds but still listed
  appears twice in the last snapshot; nobody appears twice exactly when every listed fan group was
  heard in time (`Snapshots.ShutdownPublishesOnceIff`, `Occasions.StopPublishesTwice`).
- A reconnect may find another dongle; the tracker is not told. A command names its group's master
  exactly when the dongle found last is the first one (`Telling.CommandsNameTheirMasterIff`,
  `Occasions.CommandNamesAnother`).
- Slots are one byte: they are distinct exactly up to 256 bound online devices
  (`Roster.SlotsDistinctIff`, `Occasions.SlotIsShared`).
- A poll flushes at most 64 stale pieces. It returns what the receiver answers, whatever that is,
  exactly when no more than those were waiting (`Dongle.ReturnsTheAnswerIff`); with more, the 65th
  is taken for the start of the reply (`Dongle.StalePieceIsTakenForTheReply`).
- A device that returns after going offline rejoins at the end exactly when a reply or a sweep
  noticed the silence (`SlotOrder.UnnoticedSilenceKeepsPlace`). Ticks at 0, 10 and 16 seconds that
  hear one device, another and the first again leave the first in front, after 16 seconds of silence
  (`Occasions.SilenceKeepsPlace`).
- Nothing more is sent to a released group, except under the alarm: a tick sends to a group nobody
  wants and that has no target exactly if it drives it under the alarm (`Standing.LetGoIsSentIff`,
  after any release `Standing.ReleasedIsSentIff`). The target then stays when the alarm clears; ticks
  leave it alone (`Standing.UnwantedIsSilent`) and the stop sends it once more
  (`Occasions.UnwantedIsDrivenAndTold`).
- Remembering the same groups again writes the file when two of them disagree on one address's
  count, and only then (`GroupMemory.RepeatWritesNothing`).

## Model

| member | source | states |
|---|---|---|
| Debounce.VoterConfirms | src/groups.rs:123-181 | over any history of sightings the voter holds the value of the latest three equal sightings in a row since the last silence over 15 s, or the first since then |
| Debounce.ConfirmsOnlyOne | src/groups.rs:123-181 | that description admits one value only |
| Debounce.LatestTripleAt | src/groups.rs:165-181 | the latest triple by index: no later three agree, or none ever did and the first value stands |
| DeviceTracker.AgreeOn | src/groups.rs:163-181 | the candidate after one more contrary sighting, and the value agreed on at the third in a row |
| DeviceTracker.TakeSighting | src/groups.rs:117-161 | one sighting updates the record, both voters, the time last seen and the unconfirmed count as the group's sighting function says |
| History.Debounced | src/groups.rs:123-239 | on every run a known device's identity and shape are each what its whole history of sightings confirms, the rest its last sighting; being forgotten in between has no effect |
| History.HeardIsKnown | src/groups.rs:211-239 | a device heard in the last 15 s is known |
| Solo.RunIsLocal | src/groups.rs:211-321 | a device's entry depends on its own sightings and commands only, and no address is listed twice |
| DeviceTracker.DeviceTracker.constructor | src/groups.rs:193-199 | a new tracker knows and lists nobody |
| DeviceTracker.DeviceTracker.Observe | src/groups.rs:211-220 | a reply's devices are taken in one by one, in order, then the order is rebuilt; the rest is kept |
| DeviceTracker.DeviceTracker.Sweep | src/groups.rs:225-239 | exactly the groups that stay are kept, the others are reported in order with whether they were bound, and the order is rebuilt |
| DeviceTracker.DeviceTracker.Rebuild | src/groups.rs:241-257 | those still heard keep their relative place, newcomers follow sorted by address |
| DeviceTracker.DeviceTracker.OnlineGroups | src/groups.rs:270-272 | the groups of the order, in its order |
| DeviceTracker.DeviceTracker.FanGroups | src/groups.rs:275-278 | the bound fan groups of the order |
| DeviceTracker.DeviceTracker.Slot | src/groups.rs:281-284 | the slot the tracker's state gives an address |
| DeviceTracker.DeviceTracker.SetTarget | src/groups.rs:288-301 | the target becomes the prepared duty; only a different one resets the send time and count; a stranger gets none |
| DeviceTracker.DeviceTracker.ClearTarget | src/groups.rs:305-313 | the target, send time and count are cleared, and it says whether there was a target |
| DeviceTracker.DeviceTracker.Sent | src/groups.rs:316-321 | one more unconfirmed send, at this instant, for that address only |
| SlotOrder.RunOrdered | src/groups.rs:211-257 | on every run the order holds exactly the addresses online at the last rebuild, by step of joining, then by address |
| SlotOrder.OneOrderFits | src/groups.rs:241-257 | the history leaves no choice of order, and it lists nobody twice |
| SlotOrder.NeverSwap | src/groups.rs:211-257 | two addresses that both stay listed through any further operations keep who comes first |
| SlotOrder.UnnoticedSilenceKeepsPlace | src/groups.rs:207-257 | a device heard again, however late, comes in the order behind another that stayed exactly if it did before, or a reply or sweep in between had dropped it |
| SlotOrder.NoticedSilenceLosesPlace | src/groups.rs:11-12 | a device that returns after its silence was noticed ends behind everyone who stayed |
| SlotOrder.SilenceUnnoticed | src/groups.rs:212-218 | a device heard, then another within 15 s, then the first again within 15 s of that: the first comes first, however long it was silent |
| FirstHeard.RunInOrder | src/groups.rs:264-267 | on every run the groups are listed in the order they became known: by step, and within one reply as it lists them |
| Roster.RunIsSane | src/groups.rs:211-257 | in every reachable tracker addresses are unique, the order has no duplicates and lists known groups only |
| Roster.SweptIsCurrent | src/groups.rs:225-257 | after a sweep the order holds exactly the devices heard in the last 15 s |
| Roster.FansAre | src/groups.rs:275-278 | the driven fans are the listed bound fan groups, each once |
| Roster.SlotsInOrder | src/groups.rs:281-284 | the i-th online bound device has slot i + 1, so up to 255 of them the slots are 1 to their number in order; past that the byte wraps |
| Roster.SlotsDistinctIff | src/speed.rs:143-150 | no two online bound devices share a slot exactly when there are at most 256 |
| Roster.SlotsNeverSwap | src/groups.rs:281-284 | two devices that stay online keep the order of their slots whenever both are bound and slots do not wrap |
| Unacknowledged.CountsSends | src/groups.rs:154-161 | on every run the count is the number of successful sends since creation, a real target change, a clear, or a sighting with the target applied, and the time last sent is that of the last since creation, change or clear |
| Speed.DutyFromPercent | src/speed.rs:24-26 | the duty nearest to the percentage of 255, within half a step; off only for zero, full from 100 on, and at least 77 exactly from 30 percent on |
| Speed.MinDuty | src/speed.rs:34-36 | no model's floor exceeds 35, so none reaches the engine's 77 |
| Speed.FloorIs | src/speed.rs:34-71 | the floor in numbers, by device type and fan model: 0, 20, 25, 28 or 35 |
| Speed.ModelIs | src/speed.rs:37-51 | a device has the fan model of its first non-zero fan type byte, unless its type stands on its own |
| Speed.FiltersDutyIff | src/speed.rs:77-80 | the CL series are the models 40 to 42, 126 and 127 |
| Speed.Prepare | src/speed.rs:88-115 | the slot-by-slot edit and in-place reversal compute the slot-by-slot specification |
| Speed.Reverse | src/speed.rs:108-113 | the first n elements turned round, the others untouched |
| Speed.PreparedObeysModel | src/speed.rs:73-115 | slot by slot: slots past the fans are off but a cooler's pump in the last; off stays off; less than the model's floor becomes the floor; the CL series gets 152 for 153 and 154, and 156 for 155; all else is as wanted; a right-attached chain has its fans in reverse |
| Speed.SourcesDiffer | src/speed.rs:108-113 | the reversal loses no slot and undoes itself |
| Speed.PreparedUniform | src/speed.rs:82-115 | for a fan group asked 30 percent or more, every fan gets at least 77 and every other slot 0 |
| Speed.PreparedRunsAt | src/speed.rs:82-115 | one percentage of 30 to 100 asked of a fan group is what each of its fans runs at, within half a step, up to two more for the CL series |
| Speed.PreparedFullSpeed | src/speed.rs:82-115 | full speed survives floors, filter and reversal: 255 on every fan |
| Speed.PreparedTwice | src/speed.rs:82-115 | preparing twice is preparing once, unreversed |
| Speed.AcknowledgedIff | src/speed.rs:152-163 | reported duties match when each is within five of the one sent, or equal to it where that is ten or less |
| Radio.Link.Poll | src/engine.rs:61 | a poll returns what the oracle gives for its number and is recorded |
| Radio.Link.Send | src/engine.rs:63-64 | a send returns what the oracle gives for its number and is recorded |
| Radio.Link.Reconnect | src/engine.rs:67 | only a successful reconnect changes the dongle's address and channel |
| Core.OnEveryFan | src/engine.rs:491-494 | the same duty on each fan the group has, zero elsewhere |
| Core.Core.constructor | src/engine.rs:192-214 | a new core is the run of no steps |
| Core.Core.TakeEvents | src/engine.rs:240-242 | events are handed over once, none lost |
| Core.Core.Want | src/engine.rs:217-219 | the wish is set, clamped to 30 to 100 |
| Core.Core.Release | src/engine.rs:223-232 | the wish and the target are dropped, and a line is logged exactly if there was either |
| Core.Core.Fail | src/engine.rs:327-343 | first of a kind logged, repeats counted, a repeat after a minute logged with its count |
| Core.Core.HeartbeatPhase | src/engine.rs:258-274 | a beacon only when due, its state updated only on success, a failure recorded |
| Core.Core.NoteSkipped | src/engine.rs:283-295 | skipped records are counted always and mentioned at most once a minute |
| Core.Core.LogArrivals | src/engine.rs:298-313 | the lines for groups newly online, in slot order |
| Core.Core.PollPhase | src/engine.rs:276-321 | success resets the recovery and feeds the tracker, failure counts and is recorded |
| Core.Core.SweepPhase | src/engine.rs:416-456 | quiet groups leave the order, long-quiet ones are forgotten, each logged once |
| Core.Core.LogSilences | src/engine.rs:422-436 | the lines for bound fan groups gone quiet and still remembered |
| Core.Core.LogFarewells | src/engine.rs:437-455 | the lines for groups forgotten |
| Core.Core.Judge | src/engine.rs:458-471 | the alarm follows three failures in a row, a change logged |
| Core.Core.LogChange | src/engine.rs:514-540 | a change is logged, or held and counted within ten seconds of the last line |
| Core.Core.SendIfDue | src/engine.rs:560-581 | a due target is sent once, recorded as sent on success and as failed otherwise |
| Core.Core.DriveOne | src/engine.rs:475-507 | one group driven: percentage, target, change line, send |
| Core.Core.DrivePhase | src/engine.rs:473-508 | every listed bound fan group driven, in slot order |
| Core.Core.RecoverPhase | src/engine.rs:369-412 | an attempt only when due; success restarts everything, failure doubles the wait |
| Core.Core.FlushChanges | src/engine.rs:542-555 | exactly the pending changes ten seconds old are written |
| Core.Core.FlushFails | src/engine.rs:347-359 | exactly the entries a minute old are dropped, those with a count written |
| Core.Core.GroupStates | src/engine.rs:583-617 | the groups published: listed fan groups, then the offline ones as first heard |
| Core.Core.Tick | src/engine.rs:245-256 | the phases in their order take the fields from any state to the tick's state |
| Core.Core.Turn | src/engine.rs:730-743 | the requests taken are applied in order, then one tick runs |
| Core.Core.Shutdown | src/engine.rs:625-645 | each listed fan group's unconfirmed target is sent once more, the stop logged, the snapshot published |
| EngineHistory.RunFits | src/engine.rs:163-180 | on every run each part is where its own history puts it, and the events hold exactly the two logs' lines |
| EngineTrace.RunAgrees | src/engine.rs:258-412 | what heartbeat, recovery and tracker believe happened is what the calls to the dongle and their outcomes were |
| FailTrace.FailuresAreRecorded | src/engine.rs:258-412 | on every run the failures the log was told of are, in order and with their texts, the failed beacons, polls, sends and reconnects of the ticks' calls |
| FailTrace.TicksMakeTheCalls | src/engine.rs:245-256 | on a run without a stop the ticks' calls are all the calls |
| EngineTick.TickShape | src/engine.rs:245-256 | a tick's calls are a beacon if due, one poll, the planned speed commands, and a reconnect if due, in that order |
| EngineTick.WishesAreInRange | src/engine.rs:217-219 | every wish is between 30 and 100 |
| EngineTick.WishIsTheLastAsked | src/engine.rs:215-232 | a group is wished for exactly if the last request about it asks for it, and the wish is what it asks, 30 if less, 100 if more |
| Drive.DriveAllPlan | src/engine.rs:473-508 | what the drive sends and where it leaves each group is settled by the state it starts from; answers only decide what counts as delivered |
| Drive.DriveOnePlan | src/engine.rs:475-507 | the same for one group, all others untouched |
| TickTheorems.CommandsArePlanned | src/engine.rs:473-581 | a tick attempts exactly the planned commands, in order |
| TickTheorems.SentIff | src/engine.rs:475-581 | a tick sends to exactly the groups it drives whose aimed target is due |
| TickTheorems.TargetDetermined | src/engine.rs:416-508 | after every tick a driven group's target is full speed under the alarm, else its wanted percentage prepared, else unchanged |
| TickTheorems.ChangedTargetIsSent | src/engine.rs:495-507 | a target that changed is attempted in that same tick |
| TickTheorems.TickKeepsFloor | src/engine.rs:473-508 | every command of a tick drives all its group's fans at 77 or more, other slots 0 |
| TickTheorems.FailsafeTick | src/engine.rs:476-480 | a tick that drives under the alarm leaves every online bound fan group at 255 on all fans |
| TickTheorems.SendsPrecedeReconnect | src/engine.rs:361-371 | a tick's reconnect comes after all its other calls, and only when due |
| TickTheorems.AlarmAfterTick | src/engine.rs:458-471 | after a tick the alarm is set exactly when three polls failed since the last success |
| TickTheorems.AlarmAtDrive | src/engine.rs:458-480 | a tick drives under the alarm exactly when three polls, its own included, failed since the last success |
| TickTheorems.SlotsOfOneTick | src/engine.rs:571 | the groups driven in one tick are distinct and carry distinct slots |
| TickTheorems.CommandsCarrySlots | src/speed.rs:143-150 | every command carries its group's position among the online bound devices, never a stranger's fallback |
| Orders.TickOrder | src/engine.rs:473-581 | after any run, every speed command of a tick goes out on its group's own channel and receiver type; it names the group, its receiver type, its place among the online bound devices, and the master and channel of the dongle found last; it runs every fan at 100 percent after three failed polls, else at what was last asked, held to 30 to 100 |
| Orders.DrivenIff | src/groups.rs:275-278 | a tick drives exactly the fan groups bound to the first dongle and heard in the last 15 s |
| Orders.SentWhen | src/engine.rs:495-574 | a tick sends to a group exactly if it drives it, has a percentage for it, and its target is new, unsent, not what it reports, or was sent a second ago or more |
| Orders.StopOrder | src/engine.rs:625-641 | after any run, every speed command of a stop is addressed as a tick's is, and holds its group's target, not reported applied in the last 3 s |
| Orders.BeaconNamesTheDongle | src/engine.rs:258-274 | after any run, a tick's heartbeat goes to every receiver on the channel of the dongle found last and names it |
| Shutdown.ShutdownIs | src/engine.rs:625-645 | a stop sends exactly the unconfirmed targets, as they stand, and changes no target |
| Shutdown.StopSendsIff | src/engine.rs:625-641 | a stop sends to exactly the listed fan groups with a target not reported applied in the last 3 s |
| Standing.RunKeepsTargetsSafe | src/engine.rs:473-508 | on every run every target's bytes are 0 or at least 77 |
| Standing.ShutdownKeepsTargetsSafe | src/engine.rs:625-641 | every byte of a stop's commands is 0 or at least 77 |
| Standing.SilenceLasts | src/engine.rs:223-232 | from a state that let a group go, nothing is sent to it, the stop included, until it is asked for or a tick drives under the alarm |
| Standing.ReleasedIsSilent | src/engine.rs:221-232 | the same from every release in every run |
| Standing.UnwantedIsSilent | src/engine.rs:473-483 | a group nobody wants gets nothing from any run of steps that neither asks for it, nor stops, nor drives under the alarm, even if an earlier alarm left it a target |
| Standing.UnwantedIsSentIff | src/engine.rs:473-508 | a tick sends to a group nobody wants exactly if it drives it under the alarm and its full speed was never sent, is not seen applied, or was sent a second ago |
| Standing.LetGoIsSentIff | src/engine.rs:473-508 | a tick sends to a group let go exactly if it drives it under the alarm |
| Standing.ReleasedIsSentIff | src/engine.rs:221-232 | the same of the tick after any release in any run and any steps that leave the group undisturbed |
| Runs.EveryTickKeepsFloor | src/engine.rs:473-581 | the floor of every tick command, after any run |
| Runs.EveryCommandIsSafe | src/engine.rs:473-645 | no command ever sent holds a duty below 77 other than 0 |
| Runs.AttemptsBackOff | src/engine.rs:369-412 | in the trace of calls, the k-th failed attempt of a streak comes 2^k - 2 s after the first or later up to the sixth, 62 + 60 (k - 6) s from then on, and scans every channel exactly from the sixth on |
| Runs.ReconnectsKeepPace | src/engine.rs:369-412 | in the trace of calls, every reconnect, successful or not, came while the dongle was lost and kept the pace |
| Runs.ReconnectsIff | src/engine.rs:369-412 | after any run a tick reconnects exactly if, in the trace of calls and its own poll, three polls have failed since the last success and the wait after the last failed attempt since then is over |
| Runs.EveryTickSends | src/engine.rs:557-581 | after any run a tick a second or more later sends to exactly the groups it drives that are wanted, or all of them under the alarm |
| Runs.HeartbeatsKeepTime | src/engine.rs:258-274 | in the trace of calls, a beacon is in init form exactly when none got through since start or reconnect, and two that got through are a second apart |
| Runs.EveryTickIsAlive | src/engine.rs:258-274 | in the trace of calls, after the heartbeat phase of any tick of any run, the last beacon to get through since the start or the last reconnect is under a second old, or the last call is a beacon sent now that failed |
| Runs.AlarmIsThreeFailures | src/engine.rs:458-471 | between any two steps the alarm is set exactly when three polls failed since the last successful poll or reconnect |
| Runs.FailuresAreLogged | src/engine.rs:323-359 | every failed call of the ticks is in one logged line of its text, counted in one, or still held, and any three lines of one text span a minute |
| Runs.OneLineAMinuteIff | src/engine.rs:323-359 | the logged lines of one text are a minute apart exactly when it never fails less than a minute after a flush printed its count and none came in between |
| Runs.ChangesAreLogged | src/engine.rs:510-555 | a group's target lines are ten seconds apart and with what is held account for every tick of the run whose drive changed its target |
| Runs.TickLeavesNothingOverdue | src/engine.rs:253-254 | after a tick nothing kept is a minute old and nothing pending ten seconds old |
| Runs.RepliesDecide | src/engine.rs:278-297 | a device's identity and shape are what the replies received confirm, and all else of it is as last sighted |
| Runs.SnapshotShows | src/engine.rs:583-620 | after any run and a tick, each record's duties, and its speeds if online, are those of the last sighting of its address in the replies received |
| Runs.OrderAndCounts | src/engine.rs:278-297 | on every run of the engine the slot order, the unconfirmed counts and the times last sent are those of the tracker's history |
| Runs.ReturningGroupIsDriven | src/engine.rs:445-449 | a group forgotten and heard again is sent its last asked percentage in that very tick |
| Worker.AskingIsRunning | src/engine.rs:730-737 | telling a core a batch of requests is as many steps of its run |
| Worker.TurnIsRun | src/engine.rs:728-743 | one turn of the loop extends the run by its requests and its tick |
| Worker.Work | src/engine.rs:722-772 | whatever the queue brings at each turn, the worker's core ends where the run of those steps and the stop does, and its whole event list was logged, once and in order |
| Occasions.LinesASecondApart | src/engine.rs:323-359 | a run in which two lines of one failure are a second apart |
| Occasions.StopPublishesTwice | src/engine.rs:642-645 | a run whose last snapshot lists one group twice: a group heard once, and a stop 16 s later |
| Occasions.CommandNamesAnother | src/engine.rs:377-382 | a run in which three polls fail, another dongle is found, and the next tick's command to a group of the first names the other |
| Occasions.SlotIsShared | src/speed.rs:143-150 | a run of two replies that leaves 257 bound devices online, two of them with one slot |
| Occasions.SilenceKeepsPlace | src/groups.rs:11-12 | a run of three ticks after which a device silent for 16 s comes before one heard in between |
| Occasions.UnwantedIsDrivenAndTold | src/engine.rs:476-480 | a run in which a group nobody asked for is sent full speed under the alarm, keeps it as its target when the reconnect clears the alarm, and is sent it again by the stop |
| LogNames.NewestNamesTarget | src/engine.rs:498-540 | while a group has a target, the newest change recorded, written or pending, names it |
| LogNames.EveryChangeIsRecorded | src/engine.rs:498-507 | on every run the changes the log was told of a group are as many as the ticks whose drive changed its target |
| Snapshots.TickPublishes | src/engine.rs:583-620 | after every tick each known bound fan group is published once, the online ones in slot order, then the others in the order they became known in the whole run; online exactly if heard in the last 15 s |
| Snapshots.TickShows | src/engine.rs:583-620 | after every tick each record shows the group of its address: address, receiver, fans, model, duties, target and count as they are, speeds zero exactly if not heard in the last 15 s, acknowledged exactly if reported applied in the last 3 s |
| Snapshots.StopShows | src/engine.rs:642-645 | the same after a stop, which shows all still listed as online |
| Snapshots.ShutdownPublishesOnceIff | src/engine.rs:642-645 | a stop publishes nobody twice exactly when every listed fan group was heard in the last 15 s |
| Telling.SnapshotIsTrue | src/engine.rs:276-388 | on every run the published address, channel and counters are those of the calls made; every tick polled once |
| Telling.CommandsNameTheirMasterIff | src/engine.rs:377-382 | a command names its group's master exactly if the last reconnect found the dongle the engine started on |
| Notices.ArrivalsAre | src/engine.rs:298-313 | a line for exactly the groups newly online |
| Notices.SilencesAre | src/engine.rs:422-436 | a line for exactly the bound fan groups gone quiet and still known |
| Notices.FarewellsAre | src/engine.rs:437-455 | one line for each group forgotten, in order, saying whether it is still wanted |
| Notices.SweepForgets | src/groups.rs:225-239 | a sweep forgets exactly the groups silent for over 15 s and unbound, or silent for ten minutes |
| Notices.OneArrivalEach | src/engine.rs:298-313 | no group gets two arrival lines of one reply |
| Notices.OneSilenceEach | src/engine.rs:422-436 | no group gets two lines of one silence |
| Journal.TickNotes | src/engine.rs:245-256 | the lines of a tick, those of the two rate-limited logs aside, are exactly these: skipped records, arrivals, silences, farewells, the alarm, the reconnect, the alarm again |
| Lines.OnlineIff | src/engine.rs:298-313 | a tick tells of a device exactly if its reply brought it into the order, with its fans, receiver type and owner |
| Lines.UnheardIff | src/engine.rs:416-436 | after any run, a tick tells that a device went quiet exactly if it was in the order, was silent for over 15 s and under ten minutes, and is a fan group bound to the dongle |
| Lines.ForgottenIff | src/engine.rs:437-455 | a tick tells of exactly the devices it forgets: bound ones silent for ten minutes, saying if they are wanted, and others silent for over 15 s |
| Lines.SkippedIff | src/engine.rs:281-295 | after any run, a tick tells of skipped records, and of all so far, exactly if there are any and no tick told of some in the last minute |
| Lines.RunTellsAll | src/engine.rs:377-388 | on every run the failsafe lines are raised and cleared in turn, raised last exactly while the alarm is set, and the reconnect lines are the dongles the calls found, in order |
| Lines.LastFailureIsShown | src/engine.rs:327-328 | on every run the failure published is that of the last call of the ticks that failed |
| Lines.AlarmIsShown | src/engine.rs:618-619 | the alarm a tick or a stop publishes is set exactly if three polls have failed since the last success in the trace of calls |
| Lines.AskNotes | src/engine.rs:217-232 | a release writes its line exactly if the group was wanted or had a target; a wish writes none |
| Lines.StopNotes | src/engine.rs:642-645 | a stop writes one line, that it stops |
| Heartbeat.HeartbeatTrace | src/engine.rs:258-274 | the trace property of the heartbeat machine on its own history |
| Heartbeat.TickIsAlive | src/engine.rs:258-274 | after any timed history the next heartbeat leaves a success under a second old in the history, or fails |
| Recovery.Backoff | src/engine.rs:369-412 | the pace of a streak of failed attempts, and when all channels are scanned |
| Recovery.EveryAttemptKeepsPace | src/engine.rs:369-412 | every attempt of every run, failed or not, came after three failed polls, kept the pace of its streak, and scanned every channel exactly from the sixth on |
| Recovery.NextAttempt | src/engine.rs:369-376 | the attempt about to be made keeps the pace, whatever its outcome |
| Recovery.DeadlineMeansLost | src/engine.rs:369-412 | a deadline is set exactly when the wait has grown, and only while the dongle is lost |
| FailLog.EveryFailureIsAccountedFor | src/engine.rs:327-359 | calls to fail = lines + printed counts + held count, for each text on every run |
| FailLog.FailureIsToldIff | src/engine.rs:327-343 | a failure is told at once exactly unless the last line of its text was written less than a minute ago and was not a flush's |
| FailLog.ThreeLinesSpanAMinute | src/engine.rs:327-359 | any three lines of one text span at least 60 s |
| FailLog.CloseLines | src/engine.rs:345-359 | of two neighbouring lines closer than 60 s the earlier is a flush's and the later is not |
| FailLog.OneLineAMinuteIff | src/engine.rs:323-359 | on every history, neighbouring lines of one text are 60 s apart exactly when no failure of it comes less than 60 s after the last flush that printed its count, none of it since |
| FailLog.TwoLinesCanCoincide | src/engine.rs:349-356 | with ticks at 0, 1, 60 and 60 s that fail in the first, second and last, two lines of one text share an instant |
| FailLog.FlushLeavesNothingOld | src/engine.rs:347-359 | a flush keeps exactly the entries under 60 s old |
| FailText.TextsDiffer | src/engine.rs:317-407 | two failures have one text only if they are the same failure |
| ChangeLog.RunSound | src/engine.rs:510-555 | on every run, per address: lines ten seconds apart, changes = lines + printed counts + held, pending exactly if held > 0, the newest is the latest change |
| ChangeLog.ChangeIsToldIff | src/engine.rs:514-540 | a change is told at once exactly unless a line about its group was written less than ten seconds ago |
| ChangeLog.FlushLeavesNothingRipe | src/engine.rs:542-555 | after a flush nothing pending is ten seconds old |
| Protocol.NothingIsLost | src/engine.rs:730-737 | over every interleaving, applied + taken + queued requests are what was pushed, in order, once each |
| Protocol.WishesAreRequests | src/engine.rs:217-232 | on every run the wishes are the last-writer-wins fold of the requests; nothing else changes them |
| Protocol.TickSeesWishes | src/engine.rs:730-740 | each tick runs on exactly what was pushed before the last drain: a group is wished for if the last of those requests about it asks for it, at what it asks, 30 if less, 100 if more |
| Protocol.OneTickAfterStop | src/engine.rs:748-765 | at most one tick begins after the stop flag is set |
| Protocol.ShutdownIsLast | src/engine.rs:767-772 | the core is shut down at most once, and nothing happens to it afterwards |
| Protocol.LateRequestsAreDropped | src/engine.rs:730-772 | when the worker is done, what it applied is what was pushed before its last drain |
| Protocol.StopIsObeyed | src/engine.rs:748-772 | with the flag set the worker always has a move and every move brings its end nearer |
| Protocol.HostsSeeTicks | src/engine.rs:747-771 | hosts are only ever shown the core as a tick or the stop left it, at most one behind |
| Frame.Payload | src/speed.rs:121-138 | the buffer filled field by field is the command's payload |
| Frame.RfFrames | src/frame.rs:127-138 | the four frames, each with its index, channel, receiver type and sixty payload bytes |
| Frame.CommandSurvivesTheWire | src/frame.rs:123-138 | from the four frames of a command's payload the command is read back whole |
| Frame.PagesFor | src/frame.rs:119-121 | the fewest pages that carry so many devices, at least one and at most 26 |
| Frame.ScanCoversEveryChannel | src/frame.rs:86-90 | the scan tries every channel from 1 to 39, none twice |
| Frame.ScanOrder | src/frame.rs:84-90 | after the default the scan tries the even channels, then the odd ones, each ascending |
| Discovery.ParseDevice | src/discovery.rs:165-205 | the loop over the record computes the record's device |
| Discovery.DeviceRoundTrip | src/discovery.rs:165-205 | whatever a record can say of a device is read back from a record that says it |
| Discovery.ReadDevicesAreRepresentable | src/discovery.rs:165-205 | the devices a record can yield are exactly those with an address, a device type other than the dongle's, at most four fans and twelve-bit speeds |
| Discovery.ReadIff | src/discovery.rs:153-205 | a record is read exactly if it has the marker and an address, the dongle's own told by its type; the fans are at most four whatever the count byte, and ten or more tells the side |
| Discovery.MasterRoundTrip | src/discovery.rs:153-162 | a dongle's own entry is read back from its record |
| Discovery.ParseReply | src/discovery.rs:115-150 | the loop computes the reply's masters, devices and skipped count, or the error the bytes call for |
| Discovery.RefusedIff | src/discovery.rs:115-131 | a reply is refused exactly if it is shorter than a header, of another command, or shorter than the records it promises, held to the pages asked for |
| Discovery.SortRecords | src/discovery.rs:132-143 | each record goes to one of the three, and the byte that counts skipped ones never overflows |
| Discovery.NoRecordIsLost | src/discovery.rs:132-149 | masters + devices + skipped = records examined, at most 255 |
| Discovery.BufferIsLargeEnough | src/frame.rs:114-116 | the records a reply may carry always fit the buffer asked for |
| Discovery.BufferLosesNothing | src/discovery.rs:122-131 | reading the stream cut to the buffer gives what the whole stream would, errors included, so truncated means bytes were missing |
| Discovery.ReplyRoundTrip | src/discovery.rs:110-150 | from the reply listing given entries, as many as the pages carry are read back, in order, unreadable ones counted |
| Dongle.Drain | src/dongle.rs:88-96 | the loop reads until a silence, a failure or its limit |
| Dongle.Gather | src/dongle.rs:101-122 | the loop leaves in the buffer what the port brings before a silence, cut to the buffer, or reports the failure |
| Dongle.GatherTakesThePrefix | src/dongle.rs:98-122 | however the bytes are cut into pieces, what is gathered is their prefix cut to the buffer |
| Dongle.GatherWaits | src/dongle.rs:98-122 | the opening read waits for the reply, every later one only for a pause |
| Dongle.DrainTakes | src/dongle.rs:88-96 | a flush takes one piece a read and no more than it may |
| Dongle.PollPort | src/dongle.rs:176-184 | a poll flushes, asks, gathers and parses, failing where any of them does |
| Dongle.PollReadsTheStream | src/dongle.rs:176-184 | a poll returns what the bytes before the silence say, after those of stale pieces beyond the 64 flushed |
| Dongle.FragmentationDoesNotMatter | src/dongle.rs:176-184 | two ports bringing the same bytes, however cut, with at most 64 stale pieces, give the same poll |
| Dongle.StalePieceIsTakenForTheReply | src/dongle.rs:88-96 | with more than 64 stale pieces, unless the 65th starts as a reply would, the poll fails on its first byte whatever the receiver answers |
| Dongle.ReturnsTheAnswerIff | src/dongle.rs:176-184 | a poll returns what the receiver answers, for every answer, exactly when at most 64 stale pieces were waiting |
| Dongle.PollFailsInFlush | src/dongle.rs:176-178 | a failed read in the flush fails the poll, and nothing is asked |
| Dongle.PollFailsAsking | src/dongle.rs:124-132 | a request that fails or goes out short fails the poll, as which it was |
| Dongle.PollFailsReading | src/dongle.rs:98-122 | a read that fails after some bytes fails the poll, unless they are already all the pages asked for can hold: then it is never made |
| Dongle.PollAsksForPages | src/frame.rs:100-111 | unless its flush fails a poll writes one request, for the pages it is told to, one at least and 26 at most |
| Dongle.ConnectWith | src/dongle.rs:154-173 | the nested loops ask as planned and stop at the first answer or failed transfer |
| Dongle.ConnectFollowsThePlan | src/dongle.rs:134-173 | the channels are asked in order; no master is concluded only after all; the channel reported is the one asked last |
| Dongle.FullScanAsks | src/frame.rs:84-99 | a full scan asks on channel 8 three times, first of all, and on every other channel from 1 to 39 once |
| Dongle.TryIs | src/dongle.rs:160-170 | one try writes the request for its channel; a failed or short write or a failed read is its failure, else the first piece to come is or is not an answer |
| Dongle.AnswerIs | src/frame.rs:61-82 | an answer is 13 bytes or more with the command, an address and a status above 1; it says bytes 1 to 6 and the number in bytes 11 and 12 |
| Dongle.SendFrames | src/dongle.rs:188-199 | the four frames are written until one fails |
| Dongle.SendWritesInOrder | src/dongle.rs:188-199 | a send that succeeds has put all frames out in order, each taken whole; one that fails stopped at the frame that did and says how it did |
| Dongle.Dongle.Poll | src/dongle.rs:255-260 | the pages asked for follow what was last reported; without handles it is closed and nothing changes |
| Dongle.Dongle.SendOn | src/dongle.rs:269-272 | a payload goes out on the transmitter, or the dongle is closed |
| Dongle.Dongle.Reopen | src/dongle.rs:245-251 | the handles go first; success takes the new pair with one page, failure leaves it closed and all else as it was |
| Dongle.PagesCarryWhatWasReported | src/dongle.rs:253-260 | the pages asked for next carry all the devices reported, and fewer would not |
| GroupText.ParseMac | plugin/FanControl.LianLiWireless/GroupMemory.cs:209-227 | the loop over the six parts reads the address the text holds |
| GroupText.MacRoundTrip | plugin/FanControl.LianLiWireless/EngineState.cs:119-133 | an address printed is read back |
| GroupText.AddressesDiffer | plugin/FanControl.LianLiWireless/GroupMemory.cs:173-184 | comparing printed addresses compares addresses |
| GroupText.CountRoundTrip | plugin/FanControl.LianLiWireless/GroupMemory.cs:201 | a count printed in decimal is read back |
| GroupText.LineRoundTrip | plugin/FanControl.LianLiWireless/GroupMemory.cs:187-207 | a line written is read back exactly if its count is 1 to 4 |
| GroupText.FileRoundTrip | plugin/FanControl.LianLiWireless/GroupMemory.cs:113-154 | reading what was written of distinct addresses gives the entries with counts 1 to 4 back in order, so the list itself exactly when all are |
| GroupText.ReadIsClean | plugin/FanControl.LianLiWireless/GroupMemory.cs:133-142 | whatever the file holds, no address is read twice and every count is 1 to 4 |
| GroupMemory.RememberedGrows | plugin/FanControl.LianLiWireless/GroupMemory.cs:62-101 | remembering only appends and changes counts; addresses stay distinct and those returned are exactly those added |
| GroupMemory.RememberedCounts | plugin/FanControl.LianLiWireless/GroupMemory.cs:74-92 | every address ends with the last count given for it |
| GroupMemory.RepeatWritesNothing | plugin/FanControl.LianLiWireless/GroupMemory.cs:74-97 | the same groups again add nothing, and write exactly if two of them disagree on one address |
| GroupMemory.UnwrittenIsUnchanged | plugin/FanControl.LianLiWireless/GroupMemory.cs:94-97 | nothing is written only if nothing changed |
| GroupMemory.RememberedIsReadBack | plugin/FanControl.LianLiWireless/GroupMemory.cs:62-171 | what is remembered of groups of one to four fans is read back from the file in order |
| GroupMemory.RestartFinds | plugin/FanControl.LianLiWireless/GroupMemory.cs:62-171 | after any calls on a file that can be read and written, a fresh memory finds the entries held with counts 1 to 4, in order: all that is held exactly if every count is such |
| GroupMemory.Memory.Read | plugin/FanControl.LianLiWireless/GroupMemory.cs:113-143 | a missing or unreadable file reads as empty, else line by line, the first entry of an address standing |
| GroupMemory.Memory.Loaded | plugin/FanControl.LianLiWireless/GroupMemory.cs:103-111 | the file is read once, then held |
| GroupMemory.Memory.Save | plugin/FanControl.LianLiWireless/GroupMemory.cs:145-171 | the file becomes the list's text, or stays as it was if it cannot be written |
| GroupMemory.Memory.Remember | plugin/FanControl.LianLiWireless/GroupMemory.cs:62-101 | the list, the addresses returned and the file are those of remembering the groups in turn |

## Left out

- Windows calls, device handles, USB enumeration and process checks (`src/win.rs`, `src/device.rs`, `src/enumerate.rs`, `src/process.rs`): a port's far end and the opening of the pair are parameters that may do anything.
- The C interface and its C# counterparts (`src/ffi.rs`, `Native.cs`, `Engine.cs`), the plugin's glue, sensors and file log, and `src/bin/probe.rs`: fixed layouts, host callbacks and printing.
- The bytes of the heartbeat block and the wall clock in it: a beacon is its master address and whether it is in init form.
- Catching panics, thread creation, sleeping and poisoned locks in the worker: its turns are atomic moves.
- `Link` and `Dongle` meet at the level of calls only: the engine sees an error as its text and answers by call number, and the port-level faults are not mapped to those texts.
- The order of lines within one flush, which follows a hash map's order: a flush's lines are one event that holds them as a map.
- The wording of log lines other than failures: events are structured values. The failure texts are modelled where they key the log.
- Object identity inside lists: the tracker's groups and the remembered groups are values in a sequence that the methods reassign, so an alias held elsewhere is not modelled.
- Sorting newcomers: the standard library's unstable sort is modelled by insertion; distinct addresses have one ascending order, so the result is the same.
- Counters that wrap after decades: they are natural numbers.
- The percent shown for a duty (`percent_from_duty`) and the sensor names.
- A write of the groups file that fails half-way: it either replaces the text or leaves it.
- TickTheorems.SlotsOfOneTick: distinctness is stated for at most 256 bound online devices, because a slot is one byte and the 257th wraps (Roster.SlotsDistinctIff).
- Dongle.FragmentationDoesNotMatter: pieces are at most 64 bytes, or of any length on a port that keeps what a read did not take; a port that drops the rest of a longer piece loses bytes.
