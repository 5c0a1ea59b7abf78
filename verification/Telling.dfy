/**
  What the engine tells of the dongle, and what it tells the groups: the counters, address and
  channel it publishes are those of the calls made, and the master its commands name is the
  dongle's, which is the one its groups are bound to only while no reconnect has found another.
 */
module Telling {
  import opened Types
  import opened Radio
  import opened Engine
  import opened EngineHistory
  import opened Drive
  import opened Roster
  import opened EngineTick
  import opened TickTheorems
  import Solo
  import FailLog
  import Heartbeat
  import Recovery
  import Speed

  function OkPolls(calls: seq<Call>): nat {
    if calls == [] then 0
    else OkPolls(Front(calls)) + if Last(calls).Polled? && Last(calls).result.Ok? then 1 else 0
  }

  function BadPolls(calls: seq<Call>): nat {
    if calls == [] then 0
    else BadPolls(Front(calls)) + if Last(calls).Polled? && Last(calls).result.Err? then 1 else 0
  }

  /** Records skipped in the replies received. */
  function SkippedSum(calls: seq<Call>): nat {
    if calls == [] then 0 else SkippedSum(Front(calls)) + SkippedBy(Last(calls))
  }

  function SkippedBy(call: Call): nat {
    match call
    case Polled(Ok(reply), _) => reply.skipped
    case _ => 0
  }

  predicate IsBack(call: Call) {
    call.Reconnected? && call.outcome.Ok?
  }

  function Backs(calls: seq<Call>): nat {
    if calls == [] then 0 else Backs(Front(calls)) + if IsBack(Last(calls)) then 1 else 0
  }

  /** The address and channel found by the last successful reconnect, or those at the start. */
  function LastFound(calls: seq<Call>, start: (Mac, Byte)): (Mac, Byte) {
    if calls == [] then start
    else if IsBack(Last(calls)) then Last(calls).outcome.value
    else LastFound(Front(calls), start)
  }

  /** The snapshot tells what the calls were; `ahead` ticks have begun and not polled yet. */
  ghost predicate Truthful(w: World, start: (Mac, Byte), ahead: nat) {
    var found := LastFound(w.radio.calls, start);
    && w.tracker.masterMac == start.0
    && w.radio.masterMac == found.0 == w.snapshot.masterMac
    && w.radio.channel == found.1 == w.snapshot.channel == w.channel
    && w.snapshot.polls == OkPolls(w.radio.calls)
    && w.snapshot.pollFailures == BadPolls(w.radio.calls)
    && w.snapshot.reconnects == Backs(w.radio.calls)
    && w.snapshot.skippedRecords == SkippedSum(w.radio.calls)
    && w.snapshot.ticks == w.snapshot.polls + w.snapshot.pollFailures + ahead
  }

  lemma CallAdds(calls: seq<Call>, call: Call, start: (Mac, Byte))
    ensures OkPolls(calls + [call]) == OkPolls(calls) + if call.Polled? && call.result.Ok? then 1 else 0
    ensures BadPolls(calls + [call]) == BadPolls(calls) + if call.Polled? && call.result.Err? then 1 else 0
    ensures Backs(calls + [call]) == Backs(calls) + if IsBack(call) then 1 else 0
    ensures SkippedSum(calls + [call]) == SkippedSum(calls) + SkippedBy(call)
    ensures LastFound(calls + [call], start) == if IsBack(call) then call.outcome.value else LastFound(calls, start)
  {
    assert Front(calls + [call]) == calls;
  }

  /** What the predicate does not look at may change. */
  lemma SameTelling(w: World, v: World, start: (Mac, Byte), ahead: nat)
    requires Truthful(w, start, ahead)
    requires v.tracker.masterMac == w.tracker.masterMac && v.radio == w.radio && v.channel == w.channel
    requires v.snapshot == w.snapshot.(lastError := v.snapshot.lastError,
      alarm := v.snapshot.alarm, groups := v.snapshot.groups)
    ensures Truthful(v, start, ahead)
  {
  }

  lemma FailTells(w: World, message: FailLog.Message, now: Time, start: (Mac, Byte), ahead: nat)
    requires Truthful(w, start, ahead)
    ensures Truthful(w.Fail(message, now), start, ahead)
  {
    SameTelling(w, w.Fail(message, now), start, ahead);
  }

  /** A send, told of as a success or as a failure. */
  lemma SendTells(w: World, call: Call, start: (Mac, Byte), ahead: nat)
    requires Truthful(w, start, ahead) && call.Sent?
    ensures Truthful(w.(radio := w.radio.(calls := w.radio.calls + [call])), start, ahead)
  {
    CallAdds(w.radio.calls, call, start);
  }

  lemma HeartbeatTells(w: World, oracle: Oracle, now: Time, start: (Mac, Byte), ahead: nat)
    requires Truthful(w, start, ahead)
    ensures Truthful(w.HeartbeatPhase(oracle, now), start, ahead)
  {
    hide World.Fail, Truthful;
    if w.beat.Due(now) {
      var (after, error) := w.radio.Send(oracle, w.channel, BROADCAST, Beacon(w.radio.masterMac, !w.beat.sent), now);
      SendTells(w, Last(after.calls), start, ahead);
      var told := w.(radio := after).Beat(Heartbeat.Tick(error.None?, now));
      SameTelling(w.(radio := after), told, start, ahead);
      if error.Some? {
        FailTells(told, FailLog.HeartbeatFailed(error.value), now, start, ahead);
      }
    }
  }

  lemma PollTells(w: World, oracle: Oracle, now: Time, start: (Mac, Byte))
    requires Truthful(w, start, 1)
    ensures Truthful(w.PollPhase(oracle, now), start, 0)
  {
    hide World.Fail, World.SkipNote;
    var (after, result) := w.radio.Poll(oracle, now);
    CallAdds(w.radio.calls, Polled(result, now), start);
    var told := w.(radio := after).Recovering(Recovery.Poll(result.Ok?));
    match result {
      case Err(error) =>
        FailTells(told.(snapshot := w.snapshot.(pollFailures := w.snapshot.pollFailures + 1)),
                  FailLog.PollFailed(error), now, start, 0);
      case Ok(reply) =>
        var counted := told.(snapshot := w.snapshot.(polls := w.snapshot.polls + 1));
        SkipTells(counted, reply.skipped, now);
    }
  }

  lemma SkipTells(w: World, skipped: Byte, now: Time)
    ensures var v := w.SkipNote(skipped, now);
      && v.tracker == w.tracker && v.radio == w.radio && v.channel == w.channel
      && v.snapshot == w.snapshot.(skippedRecords := w.snapshot.skippedRecords + skipped)
  {
  }

  lemma SweepTells(w: World, now: Time, start: (Mac, Byte))
    requires Truthful(w, start, 0)
    ensures Truthful(w.SweepPhase(now).Judge(), start, 0)
  {
    SameTelling(w, w.SweepPhase(now).Judge(), start, 0);
  }

  lemma SpeedTells(w: World, mac: Mac, oracle: Oracle, now: Time, start: (Mac, Byte))
    requires Truthful(w, start, 0)
    ensures Truthful(w.SendIfDue(mac, oracle, now), start, 0)
  {
    hide World.Fail, World.CommandFor, Truthful;
    var g := w.tracker.Group(mac);
    if g.Some? && g.value.Due(now) {
      var device := g.value.device;
      var command := w.CommandFor(mac, device, g.value.target.value);
      var (after, error) := w.radio.Send(oracle, device.channel, device.receiver, Duties(command), now);
      SendTells(w, Last(after.calls), start, 0);
      if error.Some? {
        FailTells(w.(radio := after), FailLog.SendFailed(mac, error.value), now, start, 0);
      } else {
        SameTelling(w.(radio := after), w.(radio := after).Track(Solo.Deliver(mac, now)), start, 0);
      }
    }
  }

  lemma DriveTells(w: World, mac: Mac, oracle: Oracle, now: Time, start: (Mac, Byte))
    requires Truthful(w, start, 0)
    ensures Truthful(w.DriveOne(mac, oracle, now), start, 0)
  {
    hide World.SendIfDue, World.DriveOne, World.PercentFor, Truthful, Speed.Uniform, Speed.Prepared;
    DriveOneIs(w, mac, oracle, now);
    if Aimed(w, mac).Some? {
      SameTelling(w, AimedWorld(w, mac, now), start, 0);
      SpeedTells(AimedWorld(w, mac, now), mac, oracle, now, start);
    }
  }

  lemma {:induction false} DrivesTell(w: World, macs: seq<Mac>, oracle: Oracle, now: Time, start: (Mac, Byte))
    requires Truthful(w, start, 0)
    ensures Truthful(w.DriveAll(macs, oracle, now), start, 0)
  {
    if macs != [] {
      hide World.DriveOne, Truthful;
      DrivesTell(w, Front(macs), oracle, now, start);
      DriveTells(w.DriveAll(Front(macs), oracle, now), Last(macs), oracle, now, start);
    }
  }

  lemma RecoverTells(w: World, oracle: Oracle, now: Time, start: (Mac, Byte))
    requires Truthful(w, start, 0)
    ensures Truthful(w.RecoverPhase(oracle, now), start, 0)
  {
    hide World.Fail;
    if w.recovery.Attempts(now) {
      var everyChannel := w.recovery.EveryChannel();
      var (after, result) := w.radio.Reconnect(oracle, everyChannel, now);
      CallAdds(w.radio.calls, Reconnected(everyChannel, result, now), start);
      if result.Err? {
        var message := FailLog.ReconnectFailed(everyChannel, result.error, w.recovery.wait / SECOND);
        FailTells(w.(radio := after), message, now, start, 0);
      }
    }
  }

  lemma TickTells(w: World, oracle: Oracle, now: Time, start: (Mac, Byte))
    requires Truthful(w, start, 0)
    ensures Truthful(w.Tick(oracle, now), start, 0)
  {
    hide World.HeartbeatPhase, World.PollPhase, World.SweepPhase, World.Judge, World.DriveOne, World.RecoverPhase;
    hide LastFound;
    var begun := w.(snapshot := w.snapshot.(ticks := w.snapshot.ticks + 1));
    assert Truthful(begun, start, 1);
    hide Truthful;
    HeartbeatTells(begun, oracle, now, start, 1);
    PollTells(begun.HeartbeatPhase(oracle, now), oracle, now, start);
    SweepTells(w.Heard(oracle, now), now, start);
    var ready := w.AtDrive(oracle, now);
    DrivesTell(ready, FanMacs(ready), oracle, now, start);
    RecoverTells(ready.DrivePhase(oracle, now), oracle, now, start);
    var recovered := ready.DrivePhase(oracle, now).RecoverPhase(oracle, now);
    SameTelling(recovered, recovered.FlushChanges(now).FlushFails(now).Publish(now), start, 0);
  }

  lemma LastSendTells(w: World, mac: Mac, oracle: Oracle, now: Time, start: (Mac, Byte))
    requires Truthful(w, start, 0)
    ensures Truthful(w.LastSend(mac, oracle, now), start, 0)
  {
    hide World.CommandFor, Truthful;
    var g := w.tracker.Group(mac);
    if g.Some? && g.value.target.Some? && !g.value.IsAcknowledged(now) {
      var device := g.value.device;
      var command := w.CommandFor(mac, device, g.value.target.value);
      var (after, error) := w.radio.Send(oracle, device.channel, device.receiver, Duties(command), now);
      SendTells(w, Last(after.calls), start, 0);
      SameTelling(w.(radio := after), w.LastSend(mac, oracle, now), start, 0);
    }
  }

  lemma {:induction false} LastSendsTell(w: World, macs: seq<Mac>, oracle: Oracle, now: Time, start: (Mac, Byte))
    requires Truthful(w, start, 0)
    ensures Truthful(w.LastSends(macs, oracle, now), start, 0)
  {
    if macs != [] {
      hide World.LastSend, Truthful;
      LastSendsTell(w, Front(macs), oracle, now, start);
      LastSendTells(w.LastSends(Front(macs), oracle, now), Last(macs), oracle, now, start);
    }
  }

  lemma StopTells(w: World, oracle: Oracle, now: Time, start: (Mac, Byte))
    requires Truthful(w, start, 0)
    ensures Truthful(w.Shutdown(oracle, now), start, 0)
  {
    hide World.LastSends, Truthful;
    LastSendsTell(w, FanMacs(w), oracle, now, start);
    var sent := w.LastSends(FanMacs(w), oracle, now);
    SameTelling(sent, sent.Say([Stopping]).Publish(now), start, 0);
  }

  lemma AskTells(w: World, request: Request, oracle: Oracle, start: (Mac, Byte))
    requires Truthful(w, start, 0)
    ensures Truthful(Engine.Apply(w, Asked(request), oracle), start, 0)
  {
    SameTelling(w, Engine.Apply(w, Asked(request), oracle), start, 0);
  }

  /**
    On every run the published address and channel are those the last successful reconnect found,
    polls, failed polls, skipped records and reconnects are counted exactly, and every tick polled once.
   */
  lemma {:induction false} SnapshotIsTrue(master: Mac, channel: Byte, steps: seq<Step>, oracle: Oracle)
    ensures Truthful(Engine.Run(master, channel, steps, oracle), (master, channel), 0)
  {
    if steps != [] {
      hide World.Tick, World.Shutdown, Truthful;
      SnapshotIsTrue(master, channel, Front(steps), oracle);
      var w := Engine.Run(master, channel, Front(steps), oracle);
      match Last(steps) {
        case Asked(request) => AskTells(w, request, oracle, (master, channel));
        case Ticked(now) => TickTells(w, oracle, now, (master, channel));
        case Stopped(now) => StopTells(w, oracle, now, (master, channel));
      }
    } else {
      assert Engine.Run(master, channel, [], oracle) == NewWorld(master, channel);
    }
  }

  /**
    A reconnect may find another dongle, and the tracker never learns of it. A tick's commands name
    the dongle found last; that is the master of the groups they go to exactly if it is the one the
    engine was started on.
   */
  lemma CommandsNameTheirMasterIff(master: Mac, channel: Byte, steps: seq<Step>, now: Time, oracle: Oracle,
                                   command: Command)
    requires Engine.Timed(steps) && Engine.Latest(steps) <= now
    requires command in TickCommands(Engine.Run(master, channel, steps, oracle), oracle, now)
    ensures var w := Engine.Run(master, channel, steps, oracle);
      var group := w.AtDrive(oracle, now).tracker.Group(command.mac);
      && group.Some?
      && (command.masterMac == group.value.device.masterMac
          <==> LastFound(w.radio.calls, (master, channel)).0 == master)
  {
    hide World.Tick, World.AtDrive, PartsFit, LogsFit, Plan, LastFound;
    var w := Engine.Run(master, channel, steps, oracle);
    var ready := w.AtDrive(oracle, now);
    RunFits(master, channel, steps, oracle);
    LaterFits(w, Engine.Latest(steps), now);
    SnapshotIsTrue(master, channel, steps, oracle);
    TickSettles(w, oracle, now);
    CommandsArePlanned(w, oracle, now);
    PlanOnly(ready, FanMacs(ready), now, command);
    FanMac(ready.tracker, command.mac);
    FansAre(ready.tracker);
    ConsistentIsSane(w, now);
    AtDriveIs(w, oracle, now);
  }
}
