/**
  The call trace and the parts agree: what the heartbeat, the recovery and the tracker believe
  happened is what the calls made to the dongle, and their outcomes, were.
 */
module EngineTrace {
  import opened Types
  import opened Groups
  import opened Radio
  import opened Engine
  import Solo
  import Heartbeat
  import Recovery
  import FailLog
  import ChangeLog
  import Speed

  /** The heartbeats and successful reconnects among the calls. */
  function Beats(calls: seq<Call>): seq<Heartbeat.Act> {
    if calls == [] then [] else Beats(calls[..|calls| - 1]) + BeatOf(calls[|calls| - 1])
  }

  function BeatOf(call: Call): seq<Heartbeat.Act> {
    match call
    case Sent(_, _, Beacon(_, first), error, at) => [Heartbeat.Beat(first, error.None?, at)]
    case Reconnected(_, Ok(_), _) => [Heartbeat.Renewed]
    case _ => []
  }

  /** The polls and reconnect attempts among the calls. */
  function Trials(calls: seq<Call>): seq<Recovery.Act> {
    if calls == [] then [] else Trials(calls[..|calls| - 1]) + TrialOf(calls[|calls| - 1])
  }

  function TrialOf(call: Call): seq<Recovery.Act> {
    match call
    case Polled(result, _) => [Recovery.Polled(result.Ok?)]
    case Reconnected(everyChannel, outcome, at) => [Recovery.Attempt(everyChannel, outcome.Ok?, at)]
    case _ => []
  }

  /** The groups whose speed commands got through, and when, in order. */
  function Delivered(calls: seq<Call>): seq<(Mac, Time)> {
    if calls == [] then [] else Delivered(calls[..|calls| - 1]) + DeliveryOf(calls[|calls| - 1])
  }

  function DeliveryOf(call: Call): seq<(Mac, Time)> {
    match call
    case Sent(_, _, Duties(command), None, at) => [(command.mac, at)]
    case _ => []
  }

  /** The groups whose sends the tracker was told of, and when, in order. */
  function Told(ops: seq<Solo.Op>): seq<(Mac, Time)> {
    if ops == [] then [] else Told(ops[..|ops| - 1]) + ToldOf(ops[|ops| - 1])
  }

  function ToldOf(op: Solo.Op): seq<(Mac, Time)> {
    if op.Deliver? then [(op.mac, op.at)] else []
  }

  /** The replies received, each with its instant. */
  function Replies(calls: seq<Call>): seq<(seq<Device>, Time)> {
    if calls == [] then [] else Replies(calls[..|calls| - 1]) + ReplyOf(calls[|calls| - 1])
  }

  function ReplyOf(call: Call): seq<(seq<Device>, Time)> {
    match call
    case Polled(Ok(reply), at) => [(reply.devices, at)]
    case _ => []
  }

  /** The replies the tracker was shown. */
  function Observed(ops: seq<Solo.Op>): seq<(seq<Device>, Time)> {
    if ops == [] then [] else Observed(ops[..|ops| - 1]) + ShownOf(ops[|ops| - 1])
  }

  function ShownOf(op: Solo.Op): seq<(seq<Device>, Time)> {
    if op.Observe? then [(op.devices, op.at)] else []
  }

  ghost predicate Agrees(w: World) {
    && Replies(w.radio.calls) == Observed(w.past.tracker)
    && Beats(w.radio.calls) == w.beat.acts
    && Trials(w.radio.calls) == w.recovery.acts
    && Delivered(w.radio.calls) == Told(w.past.tracker)
  }

  lemma CallAdds(calls: seq<Call>, call: Call)
    ensures Beats(calls + [call]) == Beats(calls) + BeatOf(call)
    ensures Trials(calls + [call]) == Trials(calls) + TrialOf(call)
    ensures Delivered(calls + [call]) == Delivered(calls) + DeliveryOf(call)
    ensures Replies(calls + [call]) == Replies(calls) + ReplyOf(call)
  {
    assert (calls + [call])[..|calls|] == calls;
  }

  lemma ToldAdds(ops: seq<Solo.Op>, op: Solo.Op)
    ensures Told(ops + [op]) == Told(ops) + ToldOf(op)
    ensures Observed(ops + [op]) == Observed(ops) + ShownOf(op)
  {
    assert (ops + [op])[..|ops|] == ops;
  }

  /** Steps that call nothing and tell the parts nothing of calls. */
  lemma FailAgrees(w: World, message: FailLog.Message, now: Time)
    requires Agrees(w)
    ensures Agrees(w.Fail(message, now))
  {
  }

  lemma TrackAgrees(w: World, op: Solo.Op)
    requires Agrees(w) && !op.Deliver? && !op.Observe?
    ensures Agrees(w.Track(op))
  {
    ToldAdds(w.past.tracker, op);
  }

  lemma HeartbeatAgrees(w: World, oracle: Oracle, now: Time)
    requires Agrees(w)
    ensures Agrees(w.HeartbeatPhase(oracle, now))
  {
    hide World.Fail;
    if w.beat.Due(now) {
      var (after, error) := w.radio.Send(oracle, w.channel, BROADCAST, Beacon(w.radio.masterMac, !w.beat.sent), now);
      CallAdds(w.radio.calls, after.calls[|w.radio.calls|]);
      var told := w.(radio := after).Beat(Heartbeat.Tick(error.None?, now));
      assert Agrees(told);
      FailAgrees(told, FailLog.HeartbeatFailed(if error.Some? then error.value else ""), now);
    }
  }

  lemma PollAgrees(w: World, oracle: Oracle, now: Time)
    requires Agrees(w)
    ensures Agrees(w.PollPhase(oracle, now))
  {
    hide World.Fail, World.SkipNote;
    var (after, result) := w.radio.Poll(oracle, now);
    CallAdds(w.radio.calls, Polled(result, now));
    var told := w.(radio := after).Recovering(Recovery.Poll(result.Ok?));
    match result {
      case Err(error) =>
        var counted := told.(snapshot := w.snapshot.(pollFailures := w.snapshot.pollFailures + 1));
        assert Agrees(counted);
        FailAgrees(counted, FailLog.PollFailed(error), now);
      case Ok(reply) =>
        var counted := told.(snapshot := w.snapshot.(polls := w.snapshot.polls + 1));
        SkipNoteIs(counted, reply.skipped, now);
        ToldAdds(w.past.tracker, Solo.Observe(reply.devices, now));
    }
  }

  lemma SkipNoteIs(w: World, skipped: Byte, now: Time)
    ensures var v := w.SkipNote(skipped, now);
      v.radio == w.radio && v.beat == w.beat && v.recovery == w.recovery && v.past.tracker == w.past.tracker
  {
  }

  lemma SendAgrees(w: World, mac: Mac, oracle: Oracle, now: Time)
    requires Agrees(w)
    ensures Agrees(w.SendIfDue(mac, oracle, now))
  {
    hide World.Fail, World.CommandFor;
    var g := w.tracker.Group(mac);
    if g.Some? && g.value.Due(now) {
      var command := w.CommandFor(mac, g.value.device, g.value.target.value);
      SpeedAgrees(w, mac, command, g.value.device, oracle, now);
      CommandNames(w, mac, g.value.device, g.value.target.value);
      Solo.GetIn(w.tracker.groups, mac);
      var (after, error) :=
        w.radio.Send(oracle, g.value.device.channel, g.value.device.receiver, Duties(command), now);
      if error.Some? {
        FailAgrees(w.(radio := after), FailLog.SendFailed(mac, error.value), now);
      }
    }
  }

  lemma CommandNames(w: World, mac: Mac, device: Device, target: Quad)
    ensures w.CommandFor(mac, device, target).mac == device.mac
  {
  }

  /** One speed command: told to the tracker exactly if it got through. */
  lemma SpeedAgrees(w: World, mac: Mac, command: Command, device: Device, oracle: Oracle, now: Time)
    requires Agrees(w)
    ensures var (after, error) := w.radio.Send(oracle, device.channel, device.receiver, Duties(command), now);
      && (error.Some? ==> Agrees(w.(radio := after)))
      && (error.None? && command.mac == mac ==> Agrees(w.(radio := after).Track(Solo.Deliver(mac, now))))
  {
    var (after, error) := w.radio.Send(oracle, device.channel, device.receiver, Duties(command), now);
    CallAdds(w.radio.calls, Sent(device.channel, device.receiver, Duties(command), error, now));
    ToldAdds(w.past.tracker, Solo.Deliver(mac, now));
  }

  lemma DriveOneAgrees(w: World, mac: Mac, oracle: Oracle, now: Time)
    requires Agrees(w)
    ensures Agrees(w.DriveOne(mac, oracle, now))
  {
    hide World.Track, World.SendIfDue, Speed.Prepared, Speed.Uniform;
    var percent, g := w.PercentFor(mac), w.tracker.Group(mac);
    if percent.Some? && g.Some? {
      var wish := Speed.Uniform(g.value.device.fanCount, percent.value);
      var target := Speed.Prepared(g.value.device, wish);
      var aimed := w.Track(Solo.Target(mac, wish));
      TrackAgrees(w, Solo.Target(mac, wish));
      var change := ChangeLog.Change(percent.value, Shown(g.value.device.fanCount, target));
      assert Agrees(aimed.Change(mac, change, now));
      SendAgrees(if g.value.target == Some(target) then aimed else aimed.Change(mac, change, now), mac, oracle, now);
    }
  }

  lemma {:induction false} DriveAllAgrees(w: World, macs: seq<Mac>, oracle: Oracle, now: Time)
    requires Agrees(w)
    ensures Agrees(w.DriveAll(macs, oracle, now))
  {
    if macs != [] {
      hide World.DriveOne;
      DriveAllAgrees(w, macs[..|macs| - 1], oracle, now);
      DriveOneAgrees(w.DriveAll(macs[..|macs| - 1], oracle, now), macs[|macs| - 1], oracle, now);
    }
  }

  lemma RecoverAgrees(w: World, oracle: Oracle, now: Time)
    requires Agrees(w)
    ensures Agrees(w.RecoverPhase(oracle, now))
  {
    hide World.Fail;
    if w.recovery.Attempts(now) {
      var (after, result) := w.radio.Reconnect(oracle, w.recovery.EveryChannel(), now);
      CallAdds(w.radio.calls, Reconnected(w.recovery.EveryChannel(), result, now));
      if result.Err? {
        var message := FailLog.ReconnectFailed(w.recovery.EveryChannel(), result.error, w.recovery.wait / SECOND);
        FailIs(w.(radio := after), message, now);
        assert Beats(after.calls) == w.beat.acts && Delivered(after.calls) == Told(w.past.tracker);
        assert Replies(after.calls) == Observed(w.past.tracker);
      }
    }
  }

  lemma FailIs(w: World, message: FailLog.Message, now: Time)
    ensures var v := w.Fail(message, now);
      v.radio == w.radio && v.beat == w.beat && v.recovery == w.recovery && v.past.tracker == w.past.tracker
  {
  }

  lemma TickAgrees(w: World, oracle: Oracle, now: Time)
    requires Agrees(w)
    ensures Agrees(w.Tick(oracle, now))
  {
    hide World.HeartbeatPhase, World.PollPhase, World.SweepPhase, World.RecoverPhase;
    var begun := w.(snapshot := w.snapshot.(ticks := w.snapshot.ticks + 1));
    assert Agrees(begun);
    HeartbeatAgrees(begun, oracle, now);
    PollAgrees(begun.HeartbeatPhase(oracle, now), oracle, now);
    var heard := w.Heard(oracle, now);
    SweepAgrees(heard, now);
    var ready := w.AtDrive(oracle, now);
    assert ready == heard.SweepPhase(now).Judge();
    DriveAllAgrees(ready, Macs(ready.tracker.DrivenFans()), oracle, now);
    RecoverAgrees(ready.DrivePhase(oracle, now), oracle, now);
  }

  lemma SweepAgrees(w: World, now: Time)
    requires Agrees(w)
    ensures Agrees(w.SweepPhase(now))
  {
    TrackAgrees(w, Solo.Sweep(now));
  }

  lemma LastSendAgrees(w: World, mac: Mac, oracle: Oracle, now: Time)
    requires Agrees(w)
    ensures Agrees(w.LastSend(mac, oracle, now))
  {
    hide World.Track, World.CommandFor;
    var g := w.tracker.Group(mac);
    if g.Some? && g.value.target.Some? && !g.value.IsAcknowledged(now) {
      var command := w.CommandFor(mac, g.value.device, g.value.target.value);
      SpeedAgrees(w, mac, command, g.value.device, oracle, now);
      CommandNames(w, mac, g.value.device, g.value.target.value);
      Solo.GetIn(w.tracker.groups, mac);
    }
  }

  lemma {:induction false} LastSendsAgree(w: World, macs: seq<Mac>, oracle: Oracle, now: Time)
    requires Agrees(w)
    ensures Agrees(w.LastSends(macs, oracle, now))
  {
    if macs != [] {
      hide World.LastSend;
      LastSendsAgree(w, macs[..|macs| - 1], oracle, now);
      LastSendAgrees(w.LastSends(macs[..|macs| - 1], oracle, now), macs[|macs| - 1], oracle, now);
    }
  }

  lemma FreedAgrees(w: World, mac: Mac)
    requires Agrees(w)
    ensures Agrees(w.Freed(mac))
  {
    TrackAgrees(w.Ask(Release(mac), w.wanted - {mac}), Solo.Clear(mac));
  }

  /** On every run the parts believe what the trace of calls shows. */
  lemma {:induction false} RunAgrees(master: Mac, channel: Byte, steps: seq<Step>, oracle: Oracle)
    ensures Agrees(Engine.Run(master, channel, steps, oracle))
  {
    if steps != [] {
      hide World.Tick, World.Freed, World.LastSends, World.Publish;
      RunAgrees(master, channel, steps[..|steps| - 1], oracle);
      var w := Engine.Run(master, channel, steps[..|steps| - 1], oracle);
      match steps[|steps| - 1] {
        case Asked(Want(mac, percent)) =>
        case Asked(Release(mac)) => FreedAgrees(w, mac);
        case Ticked(now) => TickAgrees(w, oracle, now);
        case Stopped(now) =>
          LastSendsAgree(w, Macs(w.tracker.DrivenFans()), oracle, now);
          PublishAgrees(w.LastSends(Macs(w.tracker.DrivenFans()), oracle, now).Say([Stopping]), now);
      }
    }
  }

  lemma PublishAgrees(w: World, now: Time)
    requires Agrees(w)
    ensures Agrees(w.Publish(now))
  {
  }
}
