/**
  Runs in which a promise with a condition is not kept: that the failing side of each condition is
  reached, with the requests, instants and answers that reach it.
 */
module Occasions {
  import opened Types
  import opened Seqs
  import opened Groups
  import opened Radio
  import opened Engine
  import opened EngineHistory
  import opened Drive
  import opened Roster
  import opened EngineTick
  import opened TickTheorems
  import opened Ready
  import opened QuietTicks
  import Solo
  import Speed
  import FailLog
  import Shutdown
  import SlotOrder
  import Snapshots
  import Standing
  import Telling
  import Runs

  // A tick that hears somebody.

  /** It is driven if it is a fan group of the dongle's. */
  lemma HeardFan(w: World, oracle: Oracle, now: Time, mac: Mac)
    requires Consistent(w, now) && mac in w.tracker.order && w.tracker.Group(mac).Some?
    requires w.tracker.Group(mac).value.BoundTo(w.tracker.masterMac) && w.tracker.Group(mac).value.HasFans()
    ensures w.tracker.Group(mac).value in w.tracker.DrivenFans()
    ensures w.tracker.Group(mac).value.Mac() == mac
  {
    ConsistentIsSane(w, now);
    FansAre(w.tracker);
    Solo.GetIn(w.tracker.groups, mac);
  }

  lemma {:induction false} SeenOnce(devices: seq<Device>, k: nat, now: Time)
    requires k < |devices| && forall i, j :: 0 <= i < j < |devices| ==> devices[i].mac != devices[j].mac
    ensures Solo.SeeOne(None, devices, devices[k].mac, now) == Some(NewGroup(devices[k], now))
  {
    if k < |devices| - 1 {
      SeenOnce(Front(devices), k, now);
    } else {
      NotSeen(None, Front(devices), devices[k].mac, now);
    }
  }

  lemma {:induction false} NotSeen(group: Option<Group>, devices: seq<Device>, mac: Mac, now: Time)
    requires forall i :: 0 <= i < |devices| ==> devices[i].mac != mac
    ensures Solo.SeeOne(group, devices, mac, now) == group
  {
    if devices != [] {
      NotSeen(group, Front(devices), mac, now);
    }
  }

  /** A group of three fans. */
  function Fans(mac: Mac, master: Mac): Device {
    Device(mac, master, 8, 1, 0, 3, false, [0, 0, 0, 0], [20, 20, 20, 0], [0, 0, 0, 0], [0, 0, 0, 0], 0, false, false)
  }

  // One line a minute: a poll fails in the first, the second and the last of four ticks.

  function LosingPolls(n: nat): Answer {
    Answer(if n == 5 then Ok(Reply(0, [], [], 0)) else Err("lost"), None, Err("lost"))
  }

  const FOUR_TICKS: seq<Step> := [Ticked(0), Ticked(SECOND), Ticked(60 * SECOND), Ticked(61 * SECOND)]

  lemma LosingTick(g: Gist, now: Time)
    requires g.beat.Due(now) && g.recovery.failures <= (if g.calls == 4 then 2 else 1)
    ensures var after, lost := QuietTick(g, LosingPolls, now), g.calls != 4;
      && after.calls == g.calls + 2 && after.beat.last == Some(now)
      && after.recovery.failures == (if lost then g.recovery.failures + 1 else 0)
      && after.failures == g.failures
           + if lost then [FailLog.Fail(FailLog.PollFailed("lost"), now), FailLog.Flush(now)] else [FailLog.Flush(now)]
  {
  }

  lemma FourTicksFail(master: Mac, channel: Byte)
    ensures Engine.Timed(FOUR_TICKS)
    ensures Engine.Run(master, channel, FOUR_TICKS, LosingPolls).past.failures
      == FailLog.FourTicks(FailLog.PollFailed("lost"), SECOND, 60 * SECOND, 61 * SECOND)
  {
    hide World.Tick, QuietTick, Beaten;
    var none: seq<Step> := [];
    var one, two := none + [Ticked(0)], none + [Ticked(0)] + [Ticked(SECOND)];
    var three := two + [Ticked(60 * SECOND)];
    EmptyRun(master, channel, none, 0, LosingPolls);
    LosingTick(GistOf(Engine.Run(master, channel, none, LosingPolls)), 0);
    EmptyRun(master, channel, one, SECOND, LosingPolls);
    LosingTick(GistOf(Engine.Run(master, channel, one, LosingPolls)), SECOND);
    EmptyRun(master, channel, two, 60 * SECOND, LosingPolls);
    LosingTick(GistOf(Engine.Run(master, channel, two, LosingPolls)), 60 * SECOND);
    EmptyRun(master, channel, three, 61 * SECOND, LosingPolls);
    LosingTick(GistOf(Engine.Run(master, channel, three, LosingPolls)), 61 * SECOND);
    assert three + [Ticked(61 * SECOND)] == FOUR_TICKS;
  }

  /** Two lines of one failure, one second apart: the count of the repeats, then a fresh first line. */
  lemma LinesASecondApart(master: Mac, channel: Byte)
    ensures var w, m := Engine.Run(master, channel, FOUR_TICKS, LosingPolls), FailLog.PollFailed("lost");
      var about := FailLog.About(FailureLines(w.events), m);
      && Engine.Timed(FOUR_TICKS) && !FailLog.NeverTooSoon(w.past.failures, m)
      && |about| == 3 && about[2].at - about[1].at == SECOND
  {
    FourTicksFail(master, channel);
    RunFits(master, channel, FOUR_TICKS, LosingPolls);
    FailLog.FourTicksAbout(FailLog.PollFailed("lost"), SECOND, 60 * SECOND, 61 * SECOND);
  }

  lemma FirstCalls(master: Mac, channel: Byte, oracle: Oracle)
    requires Consistent(NewWorld(master, channel), 0)
    ensures PollCall(NewWorld(master, channel), 0) == 1
    ensures |NewWorld(master, channel).Tick(oracle, 0).radio.calls| >= 2
  {
    hide World.Tick, World.AtDrive, PartsFit, LogsFit, NewCalls;
    TickShape(NewWorld(master, channel), oracle, 0);
  }

  // The last snapshot: a fan group heard once, then a stop 16 seconds later.

  function OneGroup(device: Device): Oracle {
    (n: nat) => Answer(Ok(Reply(1, [], [device], 0)), None, Err("lost"))
  }

  const ONE_TICK: seq<Step> := [Ticked(0)]

  /** Any run whose first poll brings one group: what its first tick makes of the group. */
  lemma OneGroupHeard(master: Mac, channel: Byte, oracle: Oracle, mac: Mac)
    requires oracle(1).poll == Ok(Reply(1, [], [Fans(mac, master)], 0))
    ensures var w := Engine.Run(master, channel, ONE_TICK, oracle);
      && Engine.Timed(ONE_TICK) && Engine.Latest(ONE_TICK) == 0 && Consistent(w, 0)
      && w == NewWorld(master, channel).Tick(oracle, 0)
      && Known(w, mac, Fans(mac, master))
  {
    hide World.Tick, PartsFit, LogsFit;
    var device := Fans(mac, master);
    var none: seq<Step> := [];
    MoreTimed(none, Ticked(0));
    assert Front(none + [Ticked(0)]) == none && none + [Ticked(0)] == ONE_TICK;
    var start, w := NewWorld(master, channel), Engine.Run(master, channel, ONE_TICK, oracle);
    RunFits(master, channel, none, oracle);
    RunFits(master, channel, ONE_TICK, oracle);
    FirstCalls(master, channel, oracle);
    SeenOnce([device], 0, 0);
    HeardGroup(start, oracle, 0, mac);
    MasterStays(start, oracle, 0);
    HeardFan(w, oracle, 0, mac);
  }

  /** A driven fan group, heard at the start and never since. */
  ghost predicate Known(w: World, mac: Mac, device: Device) {
    var group := w.tracker.Group(mac);
    && group.Some? && group.value.device == device && group.value.lastSeen == 0 && group.value.Mac() == mac
    && group.value in w.tracker.DrivenFans()
    && w.tracker.masterMac == device.masterMac
  }

  lemma MasterStays(w: World, oracle: Oracle, now: Time)
    requires Consistent(w, now)
    ensures w.Tick(oracle, now).tracker.masterMac == w.tracker.masterMac
  {
    hide World.Tick, World.AtDrive, PartsFit, LogsFit;
    TickSettles(w, oracle, now);
    ReadyIs(w, oracle, now);
  }

  /** A group silent for 16 seconds is published twice by the stop: once as listed, once as offline. */
  lemma StopPublishesTwice(master: Mac, channel: Byte, mac: Mac)
    ensures var steps, oracle := ONE_TICK + [Stopped(16 * SECOND)], OneGroup(Fans(mac, master));
      var groups := Engine.Run(master, channel, steps, oracle).snapshot.groups;
      && Engine.Timed(steps)
      && exists i, j :: 0 <= i < j < |groups| && groups[i].mac == groups[j].mac
  {
    hide World.Shutdown, PartsFit, LogsFit, World.Tick;
    var oracle, steps := OneGroup(Fans(mac, master)), ONE_TICK + [Stopped(16 * SECOND)];
    MoreTimed(ONE_TICK, Stopped(16 * SECOND));
    assert Front(steps) == ONE_TICK;
    OneGroupHeard(master, channel, oracle, mac);
    var w := Engine.Run(master, channel, ONE_TICK, oracle);
    LaterFits(w, 0, 16 * SECOND);
    var g := w.tracker.Group(mac).value;
    assert g in w.tracker.DrivenFans() && !g.Online(16 * SECOND);
    Snapshots.ShutdownPublishesOnceIff(w, oracle, 16 * SECOND);
    assert Engine.Run(master, channel, steps, oracle) == w.Shutdown(oracle, 16 * SECOND);
  }

  // The master of a command: the dongle is lost, and another one is found in its place.

  function SwappedDongle(other: Mac, channel: Byte, device: Device): Oracle {
    (n: nat) => Answer(if n < 7 then Err("lost") else Ok(Reply(1, [], [device], 0)), None, Ok((other, channel)))
  }

  function Swapping(mac: Mac): seq<Step> {
    [Asked(Want(mac, 50)), Ticked(0), Ticked(SECOND), Ticked(2 * SECOND)]
  }

  lemma SwappedRun(master: Mac, other: Mac, channel: Byte, mac: Mac, device: Device)
    ensures var steps := Swapping(mac);
      var w := Engine.Run(master, channel, steps, SwappedDongle(other, channel, device));
      && Engine.Timed(steps) && Engine.Latest(steps) == 2 * SECOND
      && HearsNobody(w.tracker) && w.wanted == map[mac := 50]
      && w.radio.masterMac == other && PollCall(w, 3 * SECOND) == 8
  {
    hide World.Tick;
    var oracle := SwappedDongle(other, channel, device);
    var none: seq<Step> := [];
    var asked := none + [Asked(Want(mac, 50))];
    var one, two := asked + [Ticked(0)], asked + [Ticked(0)] + [Ticked(SECOND)];
    MoreTimed(none, Asked(Want(mac, 50)));
    assert Front(asked) == none;
    EmptyRun(master, channel, asked, 0, oracle);
    EmptyRun(master, channel, one, SECOND, oracle);
    EmptyRun(master, channel, two, 2 * SECOND, oracle);
    assert two + [Ticked(2 * SECOND)] == Swapping(mac);
  }

  /** Three polls fail, the reconnect finds `other`, and the command to a group of the first dongle's names it. */
  lemma CommandNamesAnother(master: Mac, other: Mac, channel: Byte, mac: Mac)
    requires other != master
    ensures var oracle := SwappedDongle(other, channel, Fans(mac, master));
      var w := Engine.Run(master, channel, Swapping(mac), oracle);
      && Engine.Timed(Swapping(mac)) && Engine.Latest(Swapping(mac)) <= 3 * SECOND
      && exists command :: command in TickCommands(w, oracle, 3 * SECOND) && command.mac == mac
           && w.AtDrive(oracle, 3 * SECOND).tracker.Group(mac).Some?
           && command.masterMac != w.AtDrive(oracle, 3 * SECOND).tracker.Group(mac).value.device.masterMac
  {
    hide World.Tick, World.AtDrive, PartsFit, LogsFit, TickCommands;
    var now: Time := 3 * SECOND;
    var device := Fans(mac, master);
    var oracle, steps := SwappedDongle(other, channel, device), Swapping(mac);
    SwappedRun(master, other, channel, mac, device);
    RunFits(master, channel, steps, oracle);
    var w := Engine.Run(master, channel, steps, oracle);
    LaterFits(w, 2 * SECOND, now);
    Telling.SnapshotIsTrue(master, channel, steps, oracle);
    ReadyIs(w, oracle, now);
    SeenOnce([device], 0, now);
    HeardGroup(w, oracle, now, mac);
    MasterStays(w, oracle, now);
    TickFits(w, oracle, now);
    HeardFan(w.Tick(oracle, now), oracle, now, mac);
    Runs.ReturningGroupIsDriven(w, oracle, now, w.Tick(oracle, now).tracker.Group(mac).value);
    var command :| command in TickCommands(w, oracle, now) && command.mac == mac;
    Telling.CommandsNameTheirMasterIff(master, channel, steps, now, oracle, command);
  }

  // The slots: 200 groups in one reply and 57 others in the next.

  function Numbered(n: nat): Mac
    requires n < 65536
  {
    Mac(n / 256, n % 256, 0, 0, 0, 1)
  }

  lemma NumbersDiffer(m: nat, n: nat)
    requires m < 65536 && n < 65536 && m != n
    ensures Numbered(m) != Numbered(n)
  {
  }

  function Fleet(first: nat, count: nat, master: Mac): (devices: seq<Device>)
    requires first + count <= 65536
    ensures |devices| == count
  {
    seq(count, i requires 0 <= i < count => Fans(Numbered(first + i), master))
  }

  lemma FleetDiffers(first: nat, count: nat, master: Mac)
    requires first + count <= 65536
    ensures forall i :: 0 <= i < count ==> Fleet(first, count, master)[i] == Fans(Numbered(first + i), master)
    ensures var fleet := Fleet(first, count, master);
      forall i, j :: 0 <= i < j < count ==> fleet[i].mac != fleet[j].mac
  {
    var fleet := Fleet(first, count, master);
    forall i, j | 0 <= i < j < count ensures fleet[i].mac != fleet[j].mac {
      assert fleet[i] == Fans(Numbered(first + i), master) && fleet[j] == Fans(Numbered(first + j), master);
      NumbersDiffer(first + i, first + j);
    }
  }

  function TwoFleets(master: Mac): Oracle {
    (n: nat) =>
      var first, count := if n == 1 then 0 else 200, if n == 1 then 200 else 57;
      Answer(Ok(Reply(count, [], Fleet(first, count, master), 0)), None, Err("lost"))
  }

  /** What a fleet's reply makes of each numbered group. */
  lemma FleetSeen(group: Option<Group>, first: nat, count: nat, master: Mac, n: nat, now: Time)
    requires first + count <= 65536 && n < 65536
    ensures var seen := Solo.SeeOne(group, Fleet(first, count, master), Numbered(n), now);
      && (!(first <= n < first + count) ==> seen == group)
      && (first <= n < first + count && group.None? ==> seen == Some(NewGroup(Fans(Numbered(n), master), now)))
  {
    hide Fleet;
    var fleet := Fleet(first, count, master);
    FleetDiffers(first, count, master);
    if first <= n < first + count {
      if group.None? {
        SeenOnce(fleet, n - first, now);
      }
    } else {
      forall i | 0 <= i < |fleet| ensures fleet[i].mac != Numbered(n) {
        assert fleet[i].mac == Numbered(first + i);
        NumbersDiffer(first + i, n);
      }
      NotSeen(group, fleet, Numbered(n), now);
    }
  }

  const TWO_TICKS: seq<Step> := [Ticked(0), Ticked(SECOND)]

  /** Every numbered group is in the order after the second tick. */
  lemma FleetListed(master: Mac, channel: Byte, n: nat)
    requires n < 257
    ensures var t := Engine.Run(master, channel, TWO_TICKS, TwoFleets(master)).tracker;
      && Engine.Timed(TWO_TICKS) && Sane(t) && t.masterMac == master
      && Numbered(n) in t.order && t.Group(Numbered(n)).Some?
      && t.Group(Numbered(n)).value.device == Fans(Numbered(n), master)
  {
    hide World.Tick, PartsFit, LogsFit, Fleet, Numbered;
    var oracle, mac := TwoFleets(master), Numbered(n);
    var start := NewWorld(master, channel);
    var w := start.Tick(oracle, 0);
    TwoTicks(master, channel, oracle);
    FleetSeen(None, 0, 200, master, n, 0);
    HeardGroup(start, oracle, 0, mac);
    FleetSeen(w.tracker.Group(mac), 200, 57, master, n, SECOND);
    HeardGroup(w, oracle, SECOND, mac);
    MasterStays(start, oracle, 0);
    MasterStays(w, oracle, SECOND);
  }

  lemma TwoTicks(master: Mac, channel: Byte, oracle: Oracle)
    ensures var start, v := NewWorld(master, channel), Engine.Run(master, channel, TWO_TICKS, oracle);
      var w := start.Tick(oracle, 0);
      && Consistent(start, 0) && Consistent(w, SECOND) && v == w.Tick(oracle, SECOND)
      && Engine.Timed(TWO_TICKS) && Sane(v.tracker)
      && PollCall(start, 0) == 1 && PollCall(w, SECOND) > 1
  {
    hide World.Tick, PartsFit, LogsFit;
    var none: seq<Step> := [];
    var one, two := none + [Ticked(0)], none + [Ticked(0)] + [Ticked(SECOND)];
    assert Front(one) == none && Front(two) == one && two == TWO_TICKS;
    MoreTimed(none, Ticked(0));
    MoreTimed(one, Ticked(SECOND));
    RunFits(master, channel, none, oracle);
    RunFits(master, channel, one, oracle);
    RunFits(master, channel, two, oracle);
    var w := Engine.Run(master, channel, one, oracle);
    FirstCalls(master, channel, oracle);
    LaterFits(w, 0, SECOND);
    ConsistentIsSane(Engine.Run(master, channel, two, oracle), SECOND);
  }

  lemma {:induction false} NoFewer<T>(some: seq<T>, all: seq<T>)
    requires Distinct(some) && forall x :: x in some ==> x in all
    ensures |some| <= |all|
  {
    if some != [] {
      var i := Find(all, Last(some));
      var rest := all[..i] + all[i + 1..];
      forall x | x in Front(some) ensures x in rest {
        var k := Find(all, x);
        var m := Find(Front(some), x);
        assert some[m] != Last(some);
        assert x == if k < i then rest[k] else rest[k - 1];
      }
      NoFewer(Front(some), rest);
    }
  }

  /** With 257 groups of the dongle's online, two have the same slot. */
  lemma SlotIsShared(master: Mac, channel: Byte)
    ensures var t := Engine.Run(master, channel, TWO_TICKS, TwoFleets(master)).tracker;
      && Engine.Timed(TWO_TICKS) && |Slotted(t)| > 256
      && exists i, j :: 0 <= i < j < |Slotted(t)| && t.SlotOf(Slotted(t)[i].mac) == t.SlotOf(Slotted(t)[j].mac)
  {
    hide World.Tick, Engine.Run, Fleet, Numbered, TwoFleets;
    var t, fleet := Engine.Run(master, channel, TWO_TICKS, TwoFleets(master)).tracker, Fleet(0, 257, master);
    FleetListed(master, channel, 0);
    FleetDiffers(0, 257, master);
    ListedMacs(t);
    FilterMembers(Devices(t.Listed()), Speed.BoundTo(master));
    forall d | d in fleet ensures d in Slotted(t) {
      var n := Find(fleet, d);
      FleetListed(master, channel, n);
      var i := Find(t.order, Numbered(n));
      assert Devices(t.Listed())[i] == d;
    }
    NoFewer(fleet, Slotted(t));
    SlotsDistinctIff(t);
  }

  // The alarm: a group nobody wants, heard once before three polls fail.

  function AlarmedOnce(master: Mac, channel: Byte, device: Device): Oracle {
    (n: nat) =>
      Answer(if n == 1 then Ok(Reply(1, [], [device], 0)) else Err("lost"), None, Ok((master, channel)))
  }

  const ALARM_TICKS: seq<Step> := [Ticked(0), Ticked(SECOND), Ticked(2 * SECOND), Ticked(3 * SECOND)]

  /** The run after its first tick and before its third failure. */
  ghost predicate Failing(w: World, mac: Mac, device: Device, now: Time, failures: nat) {
    && Consistent(w, now) && w.wanted == map[] && |w.radio.calls| >= 2
    && w.recovery.failures == failures && w.recovery.reconnectAt.None?
    && Known(w, mac, device) && Standing.LetGo(w, mac)
  }

  lemma FailingTick(w: World, on: Byte, oracle: Oracle, mac: Mac, device: Device, now: Time, next: Time)
    requires Failing(w, mac, device, now, w.recovery.failures) && oracle == AlarmedOnce(device.masterMac, on, device)
    requires now <= next <= 15 * SECOND && device.deviceType == 0 && device.fanCount > 0
    ensures var v, failures := w.Tick(oracle, next), w.recovery.failures + 1;
      && Consistent(v, next) && v.wanted == map[] && Known(v, mac, device) && |v.radio.calls| >= 2
      && w.AtDrive(oracle, next).alarm == (failures >= 3)
      && v.recovery.failures == (if failures < 3 then failures else 0) && v.recovery.reconnectAt.None?
  {
    hide World.Tick, World.AtDrive, PartsFit, LogsFit;
    var v := w.Tick(oracle, next);
    LaterFits(w, now, next);
    TickFits(w, oracle, next);
    TickSettles(w, oracle, next);
    ReadyIs(w, oracle, next);
    HeardGroup(w, oracle, next, mac);
    MasterStays(w, oracle, next);
    HeardFan(v, oracle, next, mac);
    CommandsArePlanned(w, oracle, next);
    var ok := TickRecovers(w, oracle, next);
  }

  lemma StillFailing(w: World, on: Byte, oracle: Oracle, mac: Mac, device: Device, now: Time, next: Time, failures: nat)
    requires Failing(w, mac, device, now, failures) && oracle == AlarmedOnce(device.masterMac, on, device)
    requires now <= next <= 15 * SECOND && device.deviceType == 0 && device.fanCount > 0 && failures < 2
    ensures Failing(w.Tick(oracle, next), mac, device, next, failures + 1)
  {
    hide World.Tick, World.AtDrive, PartsFit, LogsFit, Known;
    FailingTick(w, on, oracle, mac, device, now, next);
    LaterFits(w, now, next);
    Standing.TickLeavesAlone(w, oracle, next, mac);
  }

  lemma FirstTick(master: Mac, channel: Byte, mac: Mac)
    ensures var device := Fans(mac, master);
      Failing(NewWorld(master, channel).Tick(AlarmedOnce(master, channel, device), 0), mac, device, 0, 0)
  {
    hide World.Tick, World.AtDrive, PartsFit, LogsFit, Known;
    var start, oracle := NewWorld(master, channel), AlarmedOnce(master, channel, Fans(mac, master));
    OneGroupHeard(master, channel, oracle, mac);
    RunFits(master, channel, [], oracle);
    FirstCalls(master, channel, oracle);
    ReadyIs(start, oracle, 0);
    Standing.TickLeavesAlone(start, oracle, 0, mac);
    var ok := TickRecovers(start, oracle, 0);
    TickSettles(start, oracle, 0);
  }

  /** The run up to its third failed poll, and its last tick. */
  lemma AlarmRun(master: Mac, channel: Byte, mac: Mac) returns (w: World)
    ensures var device := Fans(mac, master);
      var oracle := AlarmedOnce(master, channel, device);
      && Engine.Timed(ALARM_TICKS) && Engine.Latest(ALARM_TICKS) == 3 * SECOND
      && Failing(w, mac, device, 2 * SECOND, 2)
      && Engine.Run(master, channel, ALARM_TICKS, oracle) == w.Tick(oracle, 3 * SECOND)
  {
    hide World.Tick, Failing;
    var device := Fans(mac, master);
    var oracle := AlarmedOnce(master, channel, device);
    var two := ONE_TICK + [Ticked(SECOND)];
    var three := two + [Ticked(2 * SECOND)];
    OneGroupHeard(master, channel, oracle, mac);
    FirstTick(master, channel, mac);
    OneMoreTick(master, channel, ONE_TICK, SECOND, oracle);
    OneMoreTick(master, channel, two, 2 * SECOND, oracle);
    OneMoreTick(master, channel, three, 3 * SECOND, oracle);
    assert three + [Ticked(3 * SECOND)] == ALARM_TICKS;
    StillFailing(Engine.Run(master, channel, ONE_TICK, oracle), channel, oracle, mac, device, 0, SECOND, 0);
    StillFailing(Engine.Run(master, channel, two, oracle), channel, oracle, mac, device, SECOND, 2 * SECOND, 1);
    w := Engine.Run(master, channel, three, oracle);
  }

  /** A group of three fans told to run them at full speed. */
  predicate AtFullSpeed(duty: Quad) {
    duty == [Speed.MAX_DUTY, Speed.MAX_DUTY, Speed.MAX_DUTY, 0]
  }

  /**
    A group nobody ever asked for. The third failed poll raises the alarm, and the tick sends it full
    speed; its reconnect clears the alarm, yet the target stays, and the stop sends it once more.
   */
  lemma UnwantedIsDrivenAndTold(master: Mac, channel: Byte, mac: Mac)
    ensures var oracle := AlarmedOnce(master, channel, Fans(mac, master));
      var w := Engine.Run(master, channel, ALARM_TICKS, oracle);
      && Engine.Timed(ALARM_TICKS + [Stopped(4 * SECOND)])
      && mac !in w.wanted && !w.alarm
      && TargetOf(w.tracker, mac).Some? && AtFullSpeed(TargetOf(w.tracker, mac).value)
      && (exists command :: command in Commands(w.radio.calls) && command.mac == mac && AtFullSpeed(command.duty))
      && (exists command :: command in Commands(NewCalls(w, w.Shutdown(oracle, 4 * SECOND)))
            && command.mac == mac && AtFullSpeed(command.duty))
  {
    hide World.Tick, World.Shutdown, World.AtDrive, PartsFit, LogsFit, NewCalls, Commands, Extends;
    var device := Fans(mac, master);
    var oracle := AlarmedOnce(master, channel, device);
    var before := AlarmRun(master, channel, mac);
    var w := before.Tick(oracle, 3 * SECOND);
    MoreTimed(ALARM_TICKS, Stopped(4 * SECOND));
    LaterFits(before, 2 * SECOND, 3 * SECOND);
    FailingTick(before, channel, oracle, mac, device, 2 * SECOND, 3 * SECOND);
    ClearedAfter(before, oracle, 3 * SECOND);
    var g := w.tracker.Group(mac).value;
    FullSpeedTarget(before, oracle, 3 * SECOND, g);
    ChangedTargetIsSent(before, oracle, 3 * SECOND, g);
    CommandsArePlanned(before, oracle, 3 * SECOND);
    AmongAll(before, w);
    LaterFits(w, 3 * SECOND, 4 * SECOND);
    OwedAtStop(w, oracle, 4 * SECOND, g);
  }

  lemma AmongAll(before: World, w: World)
    requires Extends(before, w)
    ensures forall command :: command in Commands(NewCalls(before, w)) ==> command in Commands(w.radio.calls)
  {
    CommandsConcat(before.radio.calls, NewCalls(before, w));
  }

  lemma ClearedAfter(w: World, oracle: Oracle, now: Time)
    requires Consistent(w, now)
    ensures w.Tick(oracle, now).alarm == w.Tick(oracle, now).recovery.Lost()
  {
    hide World.Tick, PartsFit, LogsFit;
    AlarmAfterTick(w, oracle, now);
    TickFits(w, oracle, now);
    RecoveryHolds(w.Tick(oracle, now), now);
  }

  lemma FullSpeedTarget(w: World, oracle: Oracle, now: Time, g: Group)
    requires Consistent(w, now) && w.AtDrive(oracle, now).alarm && g in w.Tick(oracle, now).tracker.DrivenFans()
    requires Speed.Fans(g.device) == 3
    ensures g.target.Some? && AtFullSpeed(g.target.value)
  {
    hide World.Tick, World.AtDrive, PartsFit, LogsFit, Speed.Fans;
    FailsafeTick(w, oracle, now, g);
  }

  /** A target not seen applied for more than three seconds is sent by the stop. */
  lemma OwedAtStop(w: World, oracle: Oracle, now: Time, g: Group)
    requires Consistent(w, now) && g in w.tracker.DrivenFans() && w.tracker.Group(g.Mac()) == Some(g)
    requires g.target.Some? && Since(now, g.lastSeen) > 3 * SECOND
    ensures exists command ::
      && command in Commands(NewCalls(w, w.Shutdown(oracle, now)))
      && command.mac == g.Mac() && command.duty == g.target.value
  {
    hide World.Shutdown, PartsFit, LogsFit, NewCalls, Commands, Extends;
    Shutdown.ShutdownIs(w, oracle, now);
    SlotOrder.MacsOf(w.tracker.DrivenFans(), g.Mac());
    Shutdown.OwedHas(w, FanMacs(w), now, g.Mac());
    assert Shutdown.OwedCommand(w, g.Mac(), now).duty == g.target.value;
  }

  // The slot order: a silence of 16 seconds, between ticks that come too far apart to notice it.

  function Alternating(first: Device, second: Device): Oracle {
    (n: nat) => Answer(Ok(Reply(1, [], [if n == 3 then second else first], 0)), None, Err("lost"))
  }

  const SPARSE_TICKS: seq<Step> := [Ticked(0), Ticked(10 * SECOND), Ticked(16 * SECOND)]

  lemma AlternatingTick(g: Gist, first: Device, second: Device, now: Time)
    requires g.beat.Due(now)
    ensures var after := QuietTick(g, Alternating(first, second), now);
      var device := if g.calls == 2 then second else first;
      && after.calls == g.calls + 2 && after.beat.last == Some(now)
      && after.heard == g.heard + [Solo.Observe([device], now), Solo.Sweep(now)]
  {
  }

  lemma NextSparse(master: Mac, channel: Byte, steps: seq<Step>, at: Time, first: Device, second: Device)
    requires Engine.Timed(steps) && Engine.Latest(steps) <= at
    requires Engine.Run(master, channel, steps, Alternating(first, second)).wanted == map[]
    ensures DrivesNobody(Engine.Run(master, channel, steps, Alternating(first, second)), Alternating(first, second), at)
  {
    hide PartsFit, LogsFit, DrivesNobody;
    var oracle := Alternating(first, second);
    RunFits(master, channel, steps, oracle);
    LaterFits(Engine.Run(master, channel, steps, oracle), Engine.Latest(steps), at);
    NobodyIsWanted(Engine.Run(master, channel, steps, oracle), oracle, at);
  }

  lemma SparseHistory(master: Mac, channel: Byte, first: Device, second: Device)
    ensures Engine.Timed(SPARSE_TICKS)
    ensures Engine.Run(master, channel, SPARSE_TICKS, Alternating(first, second)).past.tracker
      == SlotOrder.HeardAgain(first, second, 10 * SECOND, 16 * SECOND)
  {
    hide World.Tick, QuietTick, DrivesNobody;
    var oracle := Alternating(first, second);
    var none: seq<Step> := [];
    var one, two := none + [Ticked(0)], none + [Ticked(0)] + [Ticked(10 * SECOND)];
    NextSparse(master, channel, none, 0, first, second);
    QuietRun(master, channel, none, 0, oracle);
    AlternatingTick(GistOf(Engine.Run(master, channel, none, oracle)), first, second, 0);
    NextSparse(master, channel, one, 10 * SECOND, first, second);
    QuietRun(master, channel, one, 10 * SECOND, oracle);
    AlternatingTick(GistOf(Engine.Run(master, channel, one, oracle)), first, second, 10 * SECOND);
    NextSparse(master, channel, two, 16 * SECOND, first, second);
    QuietRun(master, channel, two, 16 * SECOND, oracle);
    AlternatingTick(GistOf(Engine.Run(master, channel, two, oracle)), first, second, 16 * SECOND);
    assert two + [Ticked(16 * SECOND)] == SPARSE_TICKS;
  }

  /** A device silent for 16 seconds, longer than offline devices are, comes before one that was heard in between. */
  lemma SilenceKeepsPlace(master: Mac, channel: Byte, first: Device, second: Device)
    requires first.mac != second.mac
    ensures Engine.Timed(SPARSE_TICKS)
    ensures var t := Engine.Run(master, channel, SPARSE_TICKS, Alternating(first, second)).tracker;
      SlotOrder.ComesBefore(t.order, first.mac, second.mac)
  {
    hide Engine.Run;
    var oracle := Alternating(first, second);
    SparseHistory(master, channel, first, second);
    SlotOrder.SilenceUnnoticed(master, first, second, 10 * SECOND, 16 * SECOND);
    RunFits(master, channel, SPARSE_TICKS, oracle);
    Telling.SnapshotIsTrue(master, channel, SPARSE_TICKS, oracle);
  }
}
