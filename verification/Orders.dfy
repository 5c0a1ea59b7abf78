/**
  What the engine sends, field by field: which group a speed command goes to, what it names and at
  what duty, and what a heartbeat names, told by the requests made and the calls answered.
 */
module Orders {
  import opened Types
  import opened Groups
  import opened Radio
  import opened Engine
  import opened EngineHistory
  import opened Drive
  import opened Roster
  import opened EngineTick
  import opened TickTheorems
  import opened Ready
  import opened Shutdown
  import EngineTrace
  import SlotOrder
  import Solo
  import Protocol
  import Recovery
  import Speed
  import Telling

  /** A speed command for a device: on its own channel and receiver type, naming the dongle's master and channel. */
  ghost predicate Addressed(call: Call, device: Device, found: (Mac, Byte)) {
    && IsSpeed(call)
    && call.channel == device.channel && call.receiver == device.receiver
    && var command := call.payload.command;
       && command.mac == device.mac && command.receiver == device.receiver
       && command.masterMac == found.0 && command.channel == found.1
  }

  /** The command names the device's place among the online bound devices. */
  ghost predicate Placed(command: Command, slotted: seq<Device>, place: nat) {
    place < |slotted| && slotted[place].mac == command.mac && command.slot == (place + 1) % 256
  }

  /** Three polls or more have failed in a row, this one included. */
  ghost predicate ThirdFailure(calls: seq<Call>, polled: bool) {
    Recovery.FailedPolls(EngineTrace.Trials(calls) + [Recovery.Polled(polled)]) >= 3
  }

  /** The percentage asked for is the group's last request, held to 30 to 100. */
  ghost predicate AskedFor(requests: seq<Request>, mac: Mac, percent: int) {
    var last := LastAbout(requests, mac);
    last.Some? && last.value.Want? && Grants(last.value.percent, percent)
  }

  /** The duties run every fan of the device at this percentage, and leave the other slots off. */
  ghost predicate AllRunAt(device: Device, duty: Quad, percent: int) {
    forall slot :: 0 <= slot < 4 ==>
      if slot < Min(device.fanCount, 4) then Speed.RunsAt(device, duty[slot], percent) else duty[slot] == 0
  }

  lemma SpeedCallIsCommand(calls: seq<Call>, call: Call)
    requires call in calls && IsSpeed(call)
    ensures call.payload.command in Commands(calls)
  {
    if call != Last(calls) {
      assert calls == Front(calls) + [Last(calls)];
      SpeedCallIsCommand(Front(calls), call);
    }
  }

  /** The speed commands of a tick are among the calls of its drive. */
  lemma SpeedCallIsDriven(w: World, oracle: Oracle, now: Time, call: Call)
    requires Consistent(w, now) && call in NewCalls(w, w.Tick(oracle, now)) && IsSpeed(call)
    ensures SpeedCalls(w.AtDrive(oracle, now), [call])
    ensures call.payload.command in TickCommands(w, oracle, now)
  {
    hide World.Tick, World.AtDrive, PartsFit, LogsFit, Driven, Plan, NewCalls, Commands, Settled, Frame;
    var ready, driven, after := w.AtDrive(oracle, now), Driven(w, oracle, now), w.Tick(oracle, now);
    TickShape(w, oracle, now);
    DrivenFollows(w, oracle, now);
    ThreeStretches(w, after, NewCalls(w, ready), NewCalls(ready, driven), NewCalls(driven, after));
    SpeedCallIsCommand(NewCalls(w, after), call);
    NoSpeedBefore(w, ready, call);
  }

  lemma NoSpeedBefore(w: World, ready: World, call: Call)
    requires Frame(w, ready) && IsSpeed(call)
    ensures call !in NewCalls(w, ready)
  {
    if call in NewCalls(w, ready) {
      SpeedCallIsCommand(NewCalls(w, ready), call);
    }
  }

  /** One tick's command, told from the state before it. */
  lemma TickCommandIs(w: World, oracle: Oracle, now: Time, command: Command) returns (percent: nat)
    requires Consistent(w, now) && command in TickCommands(w, oracle, now)
    ensures var ready := w.AtDrive(oracle, now);
      var group := ready.tracker.Group(command.mac);
      && group.Some? && group.value.device.mac == command.mac
      && command == Command(command.mac, w.radio.masterMac, group.value.device.receiver, w.channel,
                            ready.tracker.SlotOf(command.mac), command.duty)
      && 30 <= percent <= 100 && AllRunAt(group.value.device, command.duty, percent)
      && (if ready.alarm then percent == 100 else command.mac in w.wanted && percent == w.wanted[command.mac])
  {
    hide World.Tick, World.AtDrive, PartsFit, LogsFit, Speed.Prepared, Speed.Uniform, Speed.RunsAt, Tracker.SlotOf;
    hide TickCommands, Plan;
    var ready := w.AtDrive(oracle, now);
    TickSettles(w, oracle, now);
    CommandsArePlanned(w, oracle, now);
    PlanOnly(ready, FanMacs(ready), now, command);
    FanMac(ready.tracker, command.mac);
    FansAre(ready.tracker);
    WishesHold(w, now);
    ConsistentIsSane(w, now);
    AtDriveIs(w, oracle, now);
    percent := ready.PercentFor(command.mac).value;
    var device := ready.tracker.Group(command.mac).value.device;
    forall slot | 0 <= slot < 4
      ensures if slot < Min(device.fanCount, 4) then Speed.RunsAt(device, command.duty[slot], percent)
              else command.duty[slot] == 0
    {
      Speed.PreparedRunsAt(device, percent, slot);
    }
  }

  /**
    After any run, every speed command of a tick goes to a group the tick drives, on its device's own
    channel and receiver type; it names that device, its receiver type, its place among the online
    bound devices, and the master and channel of the dongle found last; and it runs all the device's
    fans at 100 percent if three polls have failed in a row, and otherwise at the percentage last
    asked for, held to 30 to 100.
   */
  lemma TickOrder(master: Mac, channel: Byte, steps: seq<Step>, now: Time, oracle: Oracle, call: Call)
    returns (place: nat, percent: nat)
    requires Engine.Timed(steps) && Engine.Latest(steps) <= now
    requires var w := Engine.Run(master, channel, steps, oracle);
      call in NewCalls(w, w.Tick(oracle, now)) && IsSpeed(call)
    ensures var w, command := Engine.Run(master, channel, steps, oracle), call.payload.command;
      var ready := w.AtDrive(oracle, now);
      var group := ready.tracker.Group(command.mac);
      && group.Some? && command.mac in FanMacs(ready)
      && Addressed(call, group.value.device, Telling.LastFound(w.radio.calls, (master, channel)))
      && Placed(command, Slotted(ready.tracker), place)
      && AllRunAt(group.value.device, command.duty, percent)
      && if ThirdFailure(w.radio.calls, Answered(w, oracle, now).Ok?) then percent == 100
         else AskedFor(Protocol.Requests(steps), command.mac, percent)
  {
    hide World.Tick, World.AtDrive, PartsFit, LogsFit, TickCommands, NewCalls, Slotted, AllRunAt, Tracker.SlotOf;
    var w, command := Engine.Run(master, channel, steps, oracle), call.payload.command;
    RunFits(master, channel, steps, oracle);
    LaterFits(w, Engine.Latest(steps), now);
    SpeedCallIsDriven(w, oracle, now, call);
    place := CommandsCarrySlots(w, oracle, now, command);
    percent := TickCommandIs(w, oracle, now, command);
    Telling.SnapshotIsTrue(master, channel, steps, oracle);
    SentIff(w, oracle, now, command.mac);
    AlarmIsThird(master, channel, steps, now, oracle);
    Protocol.WishesAreRequests(master, channel, steps, oracle);
    WishIsTheLastAsked(Protocol.Requests(steps), command.mac);
  }

  /** Whom a tick drives: the fan groups bound to the first dongle and heard in the last 15 seconds. */
  lemma DrivenIff(w: World, oracle: Oracle, now: Time, mac: Mac)
    requires Consistent(w, now)
    ensures var ready := w.AtDrive(oracle, now);
      var group := ready.tracker.Group(mac);
      mac in FanMacs(ready) <==>
        && group.Some? && Since(now, group.value.lastSeen) <= 15 * SECOND
        && group.value.device.masterMac == w.tracker.masterMac
        && group.value.device.deviceType == 0 && group.value.device.fanCount > 0
  {
    hide World.Tick, World.AtDrive, PartsFit, LogsFit, Settled;
    var ready := w.AtDrive(oracle, now);
    TickSettles(w, oracle, now);
    ConsistentIsSane(w, now);
    AtDriveIs(w, oracle, now);
    FansAre(ready.tracker);
    SlotOrder.MacsOf(ready.tracker.DrivenFans(), mac);
    Solo.GetIn(ready.tracker.groups, mac);
  }

  /**
    When a tick sends to a group it drives: if it has a percentage for it, and its target is new, was
    not sent yet, is not what the group reports, or was sent a second ago or more.
   */
  lemma SentWhen(w: World, oracle: Oracle, now: Time, mac: Mac)
    requires Consistent(w, now)
    ensures var ready := w.AtDrive(oracle, now);
      var target := TargetOf(w.Tick(oracle, now).tracker, mac);
      (exists command :: command in TickCommands(w, oracle, now) && command.mac == mac) <==>
        && mac in FanMacs(ready) && (ready.alarm || mac in w.wanted) && target.Some?
        && var group := ready.tracker.Group(mac);
           && group.Some?
           && (|| group.value.target != target || group.value.lastSent.None?
               || !Speed.Matches(group.value.device.duty, target.value)
               || Since(now, group.value.lastSent.value) >= SECOND)
  {
    hide World.Tick, World.AtDrive, PartsFit, LogsFit, TickCommands, Speed.Prepared, Speed.Uniform, Speed.Acknowledged;
    hide Speed.Matches;
    var ready, after := w.AtDrive(oracle, now), w.Tick(oracle, now);
    SentIff(w, oracle, now, mac);
    TickSettles(w, oracle, now);
    if mac in FanMacs(ready) {
      FanMac(ready.tracker, mac);
      assert Settled(ready, mac, now, after.tracker.Group(mac));
      var device, target := ready.tracker.Group(mac).value.device, TargetOf(after.tracker, mac);
      if target.Some? {
        Speed.AcknowledgedIff(device.duty, target.value);
      }
    }
  }

  /** A tick drives under the alarm exactly if its own poll is the third failure in a row, or a later one. */
  lemma AlarmIsThird(master: Mac, channel: Byte, steps: seq<Step>, now: Time, oracle: Oracle)
    requires Engine.Timed(steps) && Engine.Latest(steps) <= now
    ensures var w := Engine.Run(master, channel, steps, oracle);
      w.AtDrive(oracle, now).alarm <==> ThirdFailure(w.radio.calls, Answered(w, oracle, now).Ok?)
  {
    hide World.Tick, World.AtDrive, PartsFit, LogsFit;
    var w := Engine.Run(master, channel, steps, oracle);
    RunFits(master, channel, steps, oracle);
    LaterFits(w, Engine.Latest(steps), now);
    EngineTrace.RunAgrees(master, channel, steps, oracle);
    ReadyIs(w, oracle, now);
    AlarmAtDrive(w, oracle, now);
  }

  /**
    After any run, every speed command of a stop goes to a listed fan group whose target was not
    reported applied in the last three seconds, is addressed as a tick's is, and holds that target.
   */
  lemma StopOrder(master: Mac, channel: Byte, steps: seq<Step>, now: Time, oracle: Oracle, call: Call)
    returns (place: nat)
    requires Engine.Timed(steps) && Engine.Latest(steps) <= now
    requires var w := Engine.Run(master, channel, steps, oracle); call in NewCalls(w, w.Shutdown(oracle, now))
    ensures IsSpeed(call)
    ensures var w, command := Engine.Run(master, channel, steps, oracle), call.payload.command;
      var group := w.tracker.Group(command.mac);
      && group.Some? && command.mac in FanMacs(w)
      && Addressed(call, group.value.device, Telling.LastFound(w.radio.calls, (master, channel)))
      && Placed(command, Slotted(w.tracker), place)
      && group.value.target == Some(command.duty)
      && !(Since(now, group.value.lastSeen) <= 3 * SECOND && Speed.Matches(group.value.device.duty, command.duty))
  {
    hide World.Shutdown, PartsFit, LogsFit, NewCalls, Slotted, Tracker.SlotOf, Commands, Extends;
    var w := Engine.Run(master, channel, steps, oracle);
    RunFits(master, channel, steps, oracle);
    LaterFits(w, Engine.Latest(steps), now);
    ShutdownIs(w, oracle, now);
    var command := call.payload.command;
    SpeedCallIsCommand(NewCalls(w, w.Shutdown(oracle, now)), call);
    OwedOnly(w, FanMacs(w), now, command);
    ConsistentIsSane(w, now);
    FanMac(w.tracker, command.mac);
    Telling.SnapshotIsTrue(master, channel, steps, oracle);
    place := FanIsSlotted(w.tracker, command.mac);
    SlotsInOrder(w.tracker, place);
    Speed.AcknowledgedIff(w.tracker.Group(command.mac).value.device.duty, command.duty);
  }

  /** After any run, a tick's heartbeat goes to every receiver, on the channel of the dongle found last, naming it. */
  lemma BeaconNamesTheDongle(master: Mac, channel: Byte, steps: seq<Step>, now: Time, oracle: Oracle, call: Call)
    requires Engine.Timed(steps) && Engine.Latest(steps) <= now
    requires var w := Engine.Run(master, channel, steps, oracle);
      call in NewCalls(w, w.Tick(oracle, now)) && call.Sent? && call.payload.Beacon?
    ensures var w := Engine.Run(master, channel, steps, oracle);
      var found := Telling.LastFound(w.radio.calls, (master, channel));
      call.receiver == 255 && call.payload.masterMac == found.0 && call.channel == found.1
  {
    hide World.Tick, World.AtDrive, PartsFit, LogsFit, Driven, Plan, NewCalls, Commands;
    var w := Engine.Run(master, channel, steps, oracle);
    RunFits(master, channel, steps, oracle);
    LaterFits(w, Engine.Latest(steps), now);
    var ready, driven, after := w.AtDrive(oracle, now), Driven(w, oracle, now), w.Tick(oracle, now);
    TickShape(w, oracle, now);
    ThreeStretches(w, after, NewCalls(w, ready), NewCalls(ready, driven), NewCalls(driven, after));
    assert call in NewCalls(w, ready);
    CallsToDrive(w, oracle, now);
    Telling.SnapshotIsTrue(master, channel, steps, oracle);
  }

  /** What a tick calls before its drive: a beacon if one is due, and the poll. */
  lemma CallsToDrive(w: World, oracle: Oracle, now: Time)
    ensures forall call :: call in NewCalls(w, w.AtDrive(oracle, now)) && call.Sent? ==>
      call.channel == w.channel && call.receiver == BROADCAST && call.payload.Beacon?
      && call.payload.masterMac == w.radio.masterMac
  {
    hide World.HeartbeatPhase, World.PollPhase, World.SweepPhase, World.Judge, NewCalls;
    var begun := w.(snapshot := w.snapshot.(ticks := w.snapshot.ticks + 1));
    var beaten := begun.HeartbeatPhase(oracle, now);
    var heard := beaten.PollPhase(oracle, now);
    HeartbeatFrame(begun, oracle, now);
    PollFrame(beaten, oracle, now);
    SweepFrame(heard, now);
    NoCallsYet(w, begun);
    FrameTwice(w, begun, beaten);
    FrameTwice(w, beaten, heard);
    FrameTwice(w, heard, w.AtDrive(oracle, now));
  }

  lemma NoCallsYet(w: World, begun: World)
    requires begun == w.(snapshot := begun.snapshot)
    ensures NewCalls(w, begun) == [] && Frame(w, begun)
  {
  }
}
