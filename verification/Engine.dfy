/**
  The fan loop. A `World` is the engine's state between and within ticks, together with the
  dongle and the history of everything the parts were asked to do; each phase of a tick is a
  function on it.
 */
module Engine {
  import opened Types
  import opened Seqs
  import opened Groups
  import opened Radio
  import Solo
  import Speed
  import Heartbeat
  import Recovery
  import FailLog
  import ChangeLog

  /** Lowest percentage a host can ask for. */
  const FLOOR_PERCENT: Byte := 30

  /** What every reachable group is set to when the dongle is lost. */
  const FAILSAFE_PERCENT: Byte := 100

  /** How often a poll that skipped records is mentioned in the log. */
  const SKIP_LOG_EVERY: nat := 60 * SECOND

  const EVERYBODY := Mac(255, 255, 255, 255, 255, 255)

  /** Whose a device heard is. */
  datatype Owner = Ours | Unbound | Another(masterMac: Mac)

  datatype Event =
    | Online(mac: Mac, fanCount: Byte, receiver: Byte, owner: Owner)
    | Unheard(mac: Mac)
    | Gone(mac: Mac)
    | Forgotten(mac: Mac, wanted: bool)
    | Released(mac: Mac)
    | Skipped(records: Byte, total: nat)
    | FailsafeRaised
    | FailsafeCleared
    | Reconnection(masterMac: Mac, channel: Byte)
    | Stopping
    | Failure(failure: FailLog.Line)
    | TargetChange(change: ChangeLog.Line)

  /** One group as the host sees it. */
  datatype GroupState = GroupState(
    mac: Mac, receiver: Byte, fanCount: Byte, model: Byte, online: bool, rpm: Words, duty: Quad,
    target: Option<Quad>, acknowledged: bool, unacknowledged: nat)

  /** What the engine knows, as of its last tick. */
  datatype Snapshot = Snapshot(
    masterMac: Mac, channel: Byte, ticks: nat, polls: nat, pollFailures: nat, reconnects: nat,
    skippedRecords: nat, alarm: bool, lastError: Option<FailLog.Message>, groups: seq<GroupState>)

  /** What a host asks of the loop. */
  datatype Request = Want(mac: Mac, percent: Byte) | Release(mac: Mac)

  function Clamped(percent: Byte): Byte {
    Max(FLOOR_PERCENT, Min(percent, 100))
  }

  /** The requests of a run, last writer wins. */
  function Wishes(requests: seq<Request>): map<Mac, Byte> {
    if requests == [] then map[]
    else match Last(requests)
      case Want(mac, percent) => Wishes(Front(requests))[mac := Clamped(percent)]
      case Release(mac) => Wishes(Front(requests)) - {mac}
  }

  function OwnerOf(g: Group, master: Mac): Owner {
    if g.BoundTo(master) then Ours
    else if g.device.masterMac == NO_MAC || g.device.masterMac == EVERYBODY then Unbound
    else Another(g.device.masterMac)
  }

  /** A line for each group online that was not before. */
  function Arrivals(listed: seq<Group>, before: seq<Mac>, master: Mac): seq<Event> {
    if listed == [] then []
    else
      var g := Last(listed);
      Arrivals(Front(listed), before, master)
      + if g.Mac() in before then [] else [Online(g.Mac(), g.device.fanCount, g.device.receiver, OwnerOf(g, master))]
  }

  /** A line for each fan group that was online, is not, and is still remembered. */
  function Silences(before: seq<Mac>, after: seq<Mac>, gone: seq<Mac>, tracker: Tracker): seq<Event> {
    if before == [] then []
    else
      var mac := Last(before);
      var g := tracker.Group(mac);
      Silences(Front(before), after, gone, tracker)
      + if mac !in after && mac !in gone && g.Some? && g.value.BoundTo(tracker.masterMac) && g.value.HasFans()
        then [Unheard(mac)] else []
  }

  function Farewell(g: Group, master: Mac, wanted: map<Mac, Byte>): Event {
    if g.BoundTo(master) then Forgotten(g.Mac(), g.Mac() in wanted) else Gone(g.Mac())
  }

  /** A line for each group forgotten. */
  function Farewells(forgotten: seq<Group>, master: Mac, wanted: map<Mac, Byte>): seq<Event> {
    if forgotten == [] then []
    else Farewells(Front(forgotten), master, wanted) + [Farewell(Last(forgotten), master, wanted)]
  }

  function OnlineState(g: Group, now: Time): GroupState {
    GroupState(g.Mac(), g.device.receiver, g.device.fanCount, g.device.fanTypes[0], true, g.device.rpm,
               g.device.duty, g.target, g.IsAcknowledged(now), g.unacknowledged)
  }

  function OfflineState(g: Group): GroupState {
    GroupState(g.Mac(), g.device.receiver, g.device.fanCount, g.device.fanTypes[0], false, [0, 0, 0, 0],
               g.device.duty, g.target, false, g.unacknowledged)
  }

  function OnlineStates(groups: seq<Group>, now: Time): (states: seq<GroupState>)
    ensures |states| == |groups|
  {
    seq(|groups|, i requires 0 <= i < |groups| => OnlineState(groups[i], now))
  }

  function OfflineStates(groups: seq<Group>): (states: seq<GroupState>)
    ensures |states| == |groups|
  {
    seq(|groups|, i requires 0 <= i < |groups| => OfflineState(groups[i]))
  }

  /** The fan groups bound to the dongle: those in the slot order, in its order, then the others as first heard. */
  function PublishedStates(tracker: Tracker, now: Time): seq<GroupState> {
    var offline := Filter(tracker.groups, (g: Group) => g.BoundTo(tracker.masterMac) && g.HasFans() && !g.Online(now));
    OnlineStates(tracker.DrivenFans(), now) + OfflineStates(offline)
  }

  /** What a change's line shows of a target: the duties of the group's fans. */
  function Shown(fanCount: Byte, target: Quad): seq<Byte> {
    target[..Max(1, Min(fanCount, FANS_PER_GROUP))]
  }

  datatype World = World(
    radio: Radio,
    tracker: Tracker,
    channel: Byte,
    wanted: map<Mac, Byte>,
    beat: Heartbeat.State,
    recovery: Recovery.State,
    lastSkipLog: Option<Time>,
    lastOnline: seq<Mac>,
    changes: ChangeLog.State,
    failures: FailLog.State,
    alarm: bool,
    snapshot: Snapshot,
    events: seq<Event>,
    past: Past)
  {
    // Elementary steps: each hands one operation to one part and notes it in the history.

    function Track(op: Solo.Op): World {
      this.(tracker := Solo.Apply(tracker, op), past := past.(tracker := past.tracker + [op]))
    }

    function Say(more: seq<Event>): World {
      this.(events := events + more)
    }

    function Fail(message: FailLog.Message, now: Time): World {
      var after := failures.Failed(message, now);
      this.(snapshot := snapshot.(lastError := Some(message)),
            failures := after,
            events := events + if |after.lines| > |failures.lines| then [Failure(Last(after.lines))] else [],
            past := past.(failures := past.failures + [FailLog.Fail(message, now)]))
    }

    function FlushFails(now: Time): World {
      var after := failures.Flushed(now);
      this.(failures := after,
            events := events + if |after.lines| > |failures.lines| then [Failure(Last(after.lines))] else [],
            past := past.(failures := past.failures + [FailLog.Flush(now)]))
    }

    function Change(mac: Mac, change: ChangeLog.Change, now: Time): World {
      var after := changes.Changed(mac, change, now);
      this.(changes := after,
            events := events + if |after.lines| > |changes.lines| then [TargetChange(Last(after.lines))] else [],
            past := past.(changes := past.changes + [ChangeLog.Record(mac, change, now)]))
    }

    function FlushChanges(now: Time): World {
      var after := changes.Flushed(now);
      this.(changes := after,
            events := events + if |after.lines| > |changes.lines| then [TargetChange(Last(after.lines))] else [],
            past := past.(changes := past.changes + [ChangeLog.Flush(now)]))
    }

    function Beat(op: Heartbeat.Op): World {
      this.(beat := Heartbeat.Apply(beat, op), past := past.(beats := past.beats + [op]))
    }

    function Recovering(op: Recovery.Op): World {
      this.(recovery := Recovery.Apply(recovery, op), past := past.(recovery := past.recovery + [op]))
    }

    function Ask(request: Request, wishes: map<Mac, Byte>): World {
      this.(wanted := wishes, past := past.(requests := past.requests + [request]))
    }

    // What a host asks.

    function Wanted(mac: Mac, percent: Byte): World {
      Ask(Want(mac, percent), wanted[mac := Clamped(percent)])
    }

    function Freed(mac: Mac): World {
      var asked := mac in wanted;
      var driven := tracker.Group(mac).Some? && tracker.Group(mac).value.target.Some?;
      Ask(Release(mac), wanted - {mac}).Track(Solo.Clear(mac)).Say(if asked || driven then [Released(mac)] else [])
    }

    // The phases of a tick.

    function HeartbeatPhase(oracle: Oracle, now: Time): World {
      if !beat.Due(now) then this
      else
        var (after, error) := radio.Send(oracle, channel, BROADCAST, Beacon(radio.masterMac, !beat.sent), now);
        var told := this.(radio := after).Beat(Heartbeat.Tick(error.None?, now));
        if error.None? then told else told.Fail(FailLog.HeartbeatFailed(error.value), now)
    }

    function SkipNote(skipped: Byte, now: Time): World {
      if skipped == 0 then this
      else
        var total := snapshot.skippedRecords + skipped;
        var counted := this.(snapshot := snapshot.(skippedRecords := total));
        if lastSkipLog.None? || Since(now, lastSkipLog.value) >= SKIP_LOG_EVERY then
          counted.(lastSkipLog := Some(now)).Say([Skipped(skipped, total)])
        else counted
    }

    function PollPhase(oracle: Oracle, now: Time): World {
      var (after, result) := radio.Poll(oracle, now);
      var told := this.(radio := after).Recovering(Recovery.Poll(result.Ok?));
      match result
      case Err(error) =>
        told.(snapshot := snapshot.(pollFailures := snapshot.pollFailures + 1)).Fail(FailLog.PollFailed(error), now)
      case Ok(reply) =>
        var counted := told.(snapshot := snapshot.(polls := snapshot.polls + 1)).SkipNote(reply.skipped, now);
        var seen := counted.Track(Solo.Observe(reply.devices, now));
        seen.Say(Arrivals(seen.tracker.Listed(), Macs(tracker.Listed()), tracker.masterMac))
    }

    function SweepPhase(now: Time): World {
      var swept := Track(Solo.Sweep(now));
      var after := Macs(swept.tracker.Listed());
      swept.(lastOnline := after)
           .Say(Silences(lastOnline, after, Macs(tracker.Forgotten(now)), swept.tracker))
           .Say(Farewells(tracker.Forgotten(now), tracker.masterMac, wanted))
    }

    function Judge(): World {
      if recovery.Lost() == alarm then this
      else this.(alarm := recovery.Lost()).Say([if recovery.Lost() then FailsafeRaised else FailsafeCleared])
    }

    function PercentFor(mac: Mac): Option<Byte> {
      if alarm then Some(FAILSAFE_PERCENT) else if mac in wanted then Some(wanted[mac]) else None
    }

    /** The payload names the master's channel; the frames around it go out on the device's own. */
    function CommandFor(mac: Mac, device: Device, target: Quad): Command {
      Command(device.mac, radio.masterMac, device.receiver, channel, tracker.SlotOf(mac), target)
    }

    /** Sends the group's target if it is due. */
    function SendIfDue(mac: Mac, oracle: Oracle, now: Time): World {
      var g := tracker.Group(mac);
      if g.None? || !g.value.Due(now) then this
      else
        var device := g.value.device;
        var command := CommandFor(mac, device, g.value.target.value);
        var (after, error) := radio.Send(oracle, device.channel, device.receiver, Duties(command), now);
        var told := this.(radio := after);
        if error.None? then told.Track(Solo.Deliver(mac, now)) else told.Fail(FailLog.SendFailed(mac, error.value), now)
    }

    function DriveOne(mac: Mac, oracle: Oracle, now: Time): World {
      var percent := PercentFor(mac);
      var g := tracker.Group(mac);
      if percent.None? || g.None? then this
      else
        var fanCount := g.value.device.fanCount;
        var wish := Speed.Uniform(fanCount, percent.value);
        var target := Speed.Prepared(g.value.device, wish);
        var aimed := Track(Solo.Target(mac, wish));
        var logged :=
          if g.value.target == Some(target) then aimed
          else aimed.Change(mac, ChangeLog.Change(percent.value, Shown(fanCount, target)), now);
        logged.SendIfDue(mac, oracle, now)
    }

    function DriveAll(macs: seq<Mac>, oracle: Oracle, now: Time): World {
      if macs == [] then this else DriveAll(Front(macs), oracle, now).DriveOne(Last(macs), oracle, now)
    }

    function DrivePhase(oracle: Oracle, now: Time): World {
      DriveAll(Macs(tracker.DrivenFans()), oracle, now)
    }

    function RecoverPhase(oracle: Oracle, now: Time): World {
      if !recovery.Attempts(now) then this
      else
        var everyChannel := recovery.EveryChannel();
        var (after, result) := radio.Reconnect(oracle, everyChannel, now);
        var told := this.(radio := after);
        match result
        case Ok((master, on)) =>
          told.(channel := on,
                snapshot := snapshot.(masterMac := master, channel := on, reconnects := snapshot.reconnects + 1))
              .Recovering(Recovery.Recover(true, now))
              .Beat(Heartbeat.Renew)
              .Say([Reconnection(master, on)])
              .Judge()
        case Err(error) =>
          told.Fail(FailLog.ReconnectFailed(everyChannel, error, recovery.wait / SECOND), now)
              .Recovering(Recovery.Recover(false, now))
    }

    function Publish(now: Time): World {
      this.(snapshot := snapshot.(alarm := alarm, groups := PublishedStates(tracker, now)))
    }

    /** The state after a tick's heartbeat and poll. */
    function Heard(oracle: Oracle, now: Time): World {
      this.(snapshot := snapshot.(ticks := snapshot.ticks + 1)).HeartbeatPhase(oracle, now).PollPhase(oracle, now)
    }

    /** The state in which the drive phase of a tick finds the engine. */
    function AtDrive(oracle: Oracle, now: Time): World {
      Heard(oracle, now).SweepPhase(now).Judge()
    }

    /** One pass of the loop. */
    function Tick(oracle: Oracle, now: Time): World {
      AtDrive(oracle, now)
        .DrivePhase(oracle, now).RecoverPhase(oracle, now).FlushChanges(now).FlushFails(now).Publish(now)
    }

    /** Sends one group's target a last time unless it is seen applied. */
    function LastSend(mac: Mac, oracle: Oracle, now: Time): World {
      var g := tracker.Group(mac);
      if g.None? || g.value.target.None? || g.value.IsAcknowledged(now) then this
      else
        var device := g.value.device;
        var command := CommandFor(mac, device, g.value.target.value);
        var (after, error) := radio.Send(oracle, device.channel, device.receiver, Duties(command), now);
        if error.None? then this.(radio := after).Track(Solo.Deliver(mac, now)) else this.(radio := after)
    }

    function LastSends(macs: seq<Mac>, oracle: Oracle, now: Time): World {
      if macs == [] then this else LastSends(Front(macs), oracle, now).LastSend(Last(macs), oracle, now)
    }

    function Shutdown(oracle: Oracle, now: Time): World {
      LastSends(Macs(tracker.DrivenFans()), oracle, now).Say([Stopping]).Publish(now)
    }
  }

  /** Everything the parts were asked to do, in order. */
  datatype Past = Past(
    tracker: seq<Solo.Op>,
    beats: seq<Heartbeat.Op>,
    recovery: seq<Recovery.Op>,
    changes: seq<ChangeLog.Op>,
    failures: seq<FailLog.Op>,
    requests: seq<Request>)

  function NewWorld(master: Mac, channel: Byte): World {
    World(Radio(master, channel, []), NewTracker(master), channel, map[],
          Heartbeat.Run([]), Recovery.Run([]), None, [], ChangeLog.Run([]), FailLog.Run([]), false,
          Snapshot(master, channel, 0, 0, 0, 0, 0, false, None, []), [],
          Past([], [], [], [], [], []))
  }

  /** One step of a run: a request, a tick, or the stop. */
  datatype Step = Asked(request: Request) | Ticked(at: Time) | Stopped(at: Time)

  function Apply(w: World, step: Step, oracle: Oracle): World {
    match step
    case Asked(Want(mac, percent)) => w.Wanted(mac, percent)
    case Asked(Release(mac)) => w.Freed(mac)
    case Ticked(now) => w.Tick(oracle, now)
    case Stopped(now) => w.Shutdown(oracle, now)
  }

  /** A run of the loop from its start, on a dongle that answers as `oracle` says. */
  function Run(master: Mac, channel: Byte, steps: seq<Step>, oracle: Oracle): World {
    if steps == [] then NewWorld(master, channel)
    else Apply(Run(master, channel, Front(steps), oracle), Last(steps), oracle)
  }

  function Latest(steps: seq<Step>): Time {
    if steps == [] then 0 else if Last(steps).Asked? then Latest(Front(steps)) else Last(steps).at
  }

  /** Time never runs backwards from one step to the next. */
  predicate Timed(steps: seq<Step>) {
    steps == [] || (Timed(Front(steps)) && (!Last(steps).Asked? ==> Latest(Front(steps)) <= Last(steps).at))
  }
}
