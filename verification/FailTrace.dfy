/**
  The failures the engine records are the failed calls in the trace, in order: every failed
  heartbeat, poll, send and reconnect of every tick, and nothing else.
 */
module FailTrace {
  import opened Types
  import opened Groups
  import opened Radio
  import opened Engine
  import opened EngineHistory
  import opened EngineTrace
  import opened Drive
  import opened Roster
  import opened EngineTick
  import opened TickTheorems
  import Shutdown
  import Solo
  import Heartbeat
  import Recovery
  import FailLog
  import Speed

  /** What a call raises, made after the calls in `so`: the wait a failed reconnect tells of is that of its streak. */
  function RaisedBy(so: seq<Call>, call: Call): seq<(FailLog.Message, Time)> {
    match call
    case Polled(Err(error), at) => [(FailLog.PollFailed(error), at)]
    case Sent(_, _, Beacon(_, _), Some(error), at) => [(FailLog.HeartbeatFailed(error), at)]
    case Sent(_, _, Duties(command), Some(error), at) => [(FailLog.SendFailed(command.mac, error), at)]
    case Reconnected(everyChannel, Err(error), at) =>
      var wait := Recovery.WaitAfter(|Recovery.Streak(Trials(so))|);
      [(FailLog.ReconnectFailed(everyChannel, error, wait / SECOND), at)]
    case _ => []
  }

  /** What the failed calls of a trace raise, in order. */
  function Raised(calls: seq<Call>): seq<(FailLog.Message, Time)> {
    if calls == [] then [] else Raised(Front(calls)) + RaisedBy(Front(calls), Last(calls))
  }

  /** The failures the log was told of, in order. */
  function Recorded(ops: seq<FailLog.Op>): seq<(FailLog.Message, Time)> {
    if ops == [] then []
    else Recorded(Front(ops)) + if Last(ops).Fail? then [(Last(ops).message, Last(ops).at)] else []
  }

  /** The calls made by the ticks of a run. The sends of a stop are the only others. */
  function TickedCalls(master: Mac, channel: Byte, steps: seq<Step>, oracle: Oracle): seq<Call> {
    if steps == [] then []
    else
      var before := TickedCalls(master, channel, Front(steps), oracle);
      if !Last(steps).Ticked? then before
      else
        before
        + NewCalls(Engine.Run(master, channel, Front(steps), oracle), Engine.Run(master, channel, steps, oracle))
  }

  /** The log was told of what these calls raised; the recovery saw their polls and reconnects. */
  ghost predicate Told(w: World, calls: seq<Call>) {
    Raised(calls) == Recorded(w.past.failures) && Trials(calls) == w.recovery.acts
  }

  lemma CallRaises(calls: seq<Call>, call: Call)
    ensures Raised(calls + [call]) == Raised(calls) + RaisedBy(calls, call)
    ensures Trials(calls + [call]) == Trials(calls) + TrialOf(call)
  {
    assert Front(calls + [call]) == calls;
    EngineTrace.CallAdds(calls, call);
  }

  lemma OpRecords(ops: seq<FailLog.Op>, op: FailLog.Op)
    ensures Recorded(ops + [op]) == Recorded(ops) + if op.Fail? then [(op.message, op.at)] else []
  {
    assert Front(ops + [op]) == ops;
  }

  /** A call that raises nothing, or a failure recorded at once. */
  lemma OneCallTold(w: World, v: World, calls: seq<Call>, call: Call)
    requires Told(w, calls) && v.recovery.acts == w.recovery.acts + TrialOf(call)
    requires Recorded(v.past.failures) == Recorded(w.past.failures) + RaisedBy(calls, call)
    ensures Told(v, calls + [call])
  {
    CallRaises(calls, call);
  }

  lemma NoCallTold(w: World, v: World, calls: seq<Call>)
    requires Told(w, calls) && v.recovery.acts == w.recovery.acts && v.past.failures == w.past.failures
    ensures Told(v, calls + [])
  {
    assert calls + [] == calls;
  }

  lemma FailRecords(w: World, message: FailLog.Message, now: Time)
    ensures Recorded(w.Fail(message, now).past.failures) == Recorded(w.past.failures) + [(message, now)]
    ensures w.Fail(message, now).recovery == w.recovery
  {
    OpRecords(w.past.failures, FailLog.Fail(message, now));
  }

  lemma HeartbeatTold(w: World, calls: seq<Call>, oracle: Oracle, now: Time)
    requires Told(w, calls)
    ensures Told(w.HeartbeatPhase(oracle, now), calls + NewCalls(w, w.HeartbeatPhase(oracle, now)))
  {
    hide World.Fail, Told, NewCalls, RaisedBy, Recorded, EngineTick.Frame;
    var v := w.HeartbeatPhase(oracle, now);
    HeartbeatFrame(w, oracle, now);
    if w.beat.Due(now) {
      BeaconTold(w, calls, oracle, now);
    } else {
      NoCallTold(w, v, calls);
    }
  }

  lemma BeaconTold(w: World, calls: seq<Call>, oracle: Oracle, now: Time)
    requires Told(w, calls) && w.beat.Due(now)
    ensures var error := oracle(|w.radio.calls|).sendError;
      Told(w.HeartbeatPhase(oracle, now),
           calls + [Sent(w.channel, BROADCAST, Beacon(w.radio.masterMac, !w.beat.sent), error, now)])
  {
    hide World.Fail, Told;
    var error := oracle(|w.radio.calls|).sendError;
    var beacon := Sent(w.channel, BROADCAST, Beacon(w.radio.masterMac, !w.beat.sent), error, now);
    var sent := w.(radio := w.radio.(calls := w.radio.calls + [beacon])).Beat(Heartbeat.Tick(error.None?, now));
    if error.Some? {
      FailRecords(sent, FailLog.HeartbeatFailed(error.value), now);
    }
    assert w.recovery.acts + [] == w.recovery.acts;
    assert Recorded(w.past.failures) + [] == Recorded(w.past.failures);
    OneCallTold(w, w.HeartbeatPhase(oracle, now), calls, beacon);
  }

  lemma PollTold(w: World, calls: seq<Call>, oracle: Oracle, now: Time)
    requires Told(w, calls)
    ensures Told(w.PollPhase(oracle, now), calls + NewCalls(w, w.PollPhase(oracle, now)))
  {
    hide World.Fail, World.SkipNote, Told;
    var v, result := w.PollPhase(oracle, now), oracle(|w.radio.calls|).poll;
    PollFrame(w, oracle, now);
    var told := w.(radio := w.radio.Poll(oracle, now).0).Recovering(Recovery.Poll(result.Ok?));
    if result.Err? {
      var counted := told.(snapshot := w.snapshot.(pollFailures := w.snapshot.pollFailures + 1));
      FailRecords(counted, FailLog.PollFailed(result.error), now);
    } else {
      SkipRecords(told.(snapshot := w.snapshot.(polls := w.snapshot.polls + 1)), result.value.skipped, now);
      assert Recorded(w.past.failures) + [] == Recorded(w.past.failures);
    }
    OneCallTold(w, v, calls, Polled(result, now));
  }

  lemma SkipRecords(w: World, skipped: Byte, now: Time)
    ensures var v := w.SkipNote(skipped, now); v.past == w.past && v.recovery == w.recovery
  {
  }

  lemma SendTold(w: World, calls: seq<Call>, mac: Mac, oracle: Oracle, now: Time)
    requires Told(w, calls) && Unique(w.tracker.groups)
    ensures Told(w.SendIfDue(mac, oracle, now), calls + NewCalls(w, w.SendIfDue(mac, oracle, now)))
  {
    hide World.Fail, World.CommandFor, Told, NewCalls, Steady;
    var v, g := w.SendIfDue(mac, oracle, now), w.tracker.Group(mac);
    SendSteady(w, mac, oracle, now);
    assert Recorded(w.past.failures) + [] == Recorded(w.past.failures) && w.recovery.acts + [] == w.recovery.acts;
    if g.Some? && g.value.Due(now) {
      var call := NewCalls(w, v)[0];
      var error := oracle(|w.radio.calls|).sendError;
      Solo.GetIn(w.tracker.groups, mac);
      CommandNames(w, mac, g.value.device, g.value.target.value);
      SendRecords(w, mac, oracle, now);
      assert NewCalls(w, v) == [call];
      OneCallTold(w, v, calls, call);
    } else {
      NothingNew(w);
      NoCallTold(w, v, calls);
    }
  }

  lemma NothingNew(w: World)
    ensures NewCalls(w, w) == []
  {
  }

  lemma SendRecords(w: World, mac: Mac, oracle: Oracle, now: Time)
    requires w.tracker.Group(mac).Some? && w.tracker.Group(mac).value.Due(now)
    ensures var v, error := w.SendIfDue(mac, oracle, now), oracle(|w.radio.calls|).sendError;
      && v.recovery == w.recovery
      && Recorded(v.past.failures)
         == Recorded(w.past.failures) + if error.Some? then [(FailLog.SendFailed(mac, error.value), now)] else []
  {
    hide World.Fail, World.CommandFor;
    var g, error := w.tracker.Group(mac).value, oracle(|w.radio.calls|).sendError;
    var command := w.CommandFor(mac, g.device, g.target.value);
    if error.Some? {
      var after := w.radio.Send(oracle, g.device.channel, g.device.receiver, Duties(command), now).0;
      FailRecords(w.(radio := after), FailLog.SendFailed(mac, error.value), now);
    }
  }

  lemma DriveTold(w: World, calls: seq<Call>, mac: Mac, oracle: Oracle, now: Time)
    requires Told(w, calls) && Unique(w.tracker.groups)
    ensures Told(w.DriveOne(mac, oracle, now), calls + NewCalls(w, w.DriveOne(mac, oracle, now)))
  {
    hide World.SendIfDue, World.DriveOne, World.PercentFor, Told, Speed.Uniform, Speed.Prepared, Aimed;
    DriveOneIs(w, mac, oracle, now);
    if Aimed(w, mac).Some? {
      var u := AimedWorld(w, mac, now);
      AimedSteady(w, mac, now);
      AimedTold(w, calls, mac, now);
      SendSteady(u, mac, oracle, now);
      SteadyTwice(w, u, u.SendIfDue(mac, oracle, now));
      SendTold(u, calls, mac, oracle, now);
      assert [] + NewCalls(u, u.SendIfDue(mac, oracle, now)) == NewCalls(u, u.SendIfDue(mac, oracle, now));
    } else {
      NothingNew(w);
      NoCallTold(w, w, calls);
    }
  }

  lemma AimedTold(w: World, calls: seq<Call>, mac: Mac, now: Time)
    requires Told(w, calls) && Aimed(w, mac).Some?
    ensures Told(AimedWorld(w, mac, now), calls)
  {
    hide Speed.Uniform, Speed.Prepared;
  }

  lemma {:induction false} DrivesTold(w: World, calls: seq<Call>, macs: seq<Mac>, oracle: Oracle, now: Time)
    requires Told(w, calls) && Unique(w.tracker.groups) && Distinct(macs)
    ensures Told(w.DriveAll(macs, oracle, now), calls + NewCalls(w, w.DriveAll(macs, oracle, now)))
  {
    if macs == [] {
      NothingNew(w);
      NoCallTold(w, w, calls);
    } else {
      hide World.DriveOne, Told, Settled, SpeedCalls, Plan, PlanOne;
      DrivesTold(w, calls, Front(macs), oracle, now);
      DriveAllPlan(w, Front(macs), oracle, now);
      var u, mac := w.DriveAll(Front(macs), oracle, now), Last(macs);
      DriveTold(u, calls + NewCalls(w, u), mac, oracle, now);
      DriveOnePlan(u, mac, oracle, now);
      SteadyTwice(w, u, u.DriveOne(mac, oracle, now));
      Joined(calls, NewCalls(w, u), NewCalls(u, u.DriveOne(mac, oracle, now)));
    }
  }

  lemma Joined(a: seq<Call>, b: seq<Call>, c: seq<Call>)
    ensures a + b + c == a + (b + c)
  {
  }

  lemma RecoverTold(w: World, calls: seq<Call>, oracle: Oracle, now: Time)
    requires Told(w, calls) && Recovery.Fits(w.recovery)
    ensures Told(w.RecoverPhase(oracle, now), calls + NewCalls(w, w.RecoverPhase(oracle, now)))
  {
    hide World.Fail, World.Judge, Told;
    var v := w.RecoverPhase(oracle, now);
    RecoverIs(w, oracle, now);
    if w.recovery.Attempts(now) {
      var everyChannel, result := w.recovery.EveryChannel(), oracle(|w.radio.calls|).reconnect;
      var call := Reconnected(everyChannel, result, now);
      CallsBeyond(w, v, [call]);
      AttemptRecords(w, calls, oracle, now);
      OneCallTold(w, v, calls, call);
    } else {
      NothingNew(w);
      NoCallTold(w, v, calls);
    }
  }

  lemma AttemptRecords(w: World, calls: seq<Call>, oracle: Oracle, now: Time)
    requires Told(w, calls) && Recovery.Fits(w.recovery) && w.recovery.Attempts(now)
    ensures var v, result := w.RecoverPhase(oracle, now), oracle(|w.radio.calls|).reconnect;
      var call := Reconnected(w.recovery.EveryChannel(), result, now);
      && v.recovery.acts == w.recovery.acts + TrialOf(call)
      && Recorded(v.past.failures) == Recorded(w.past.failures) + RaisedBy(calls, call)
  {
    hide World.Fail, Recorded, Raised, Trials;
    var everyChannel, result := w.recovery.EveryChannel(), oracle(|w.radio.calls|).reconnect;
    var after := w.radio.Reconnect(oracle, everyChannel, now).0;
    if result.Err? {
      var message := FailLog.ReconnectFailed(everyChannel, result.error, w.recovery.wait / SECOND);
      FailRecords(w.(radio := after), message, now);
    } else {
      assert Recorded(w.past.failures) + [] == Recorded(w.past.failures);
    }
  }

  /** What follows the reconnect raises nothing. */
  lemma RestTold(w: World, calls: seq<Call>, now: Time)
    requires Told(w, calls)
    ensures Told(w.FlushChanges(now).FlushFails(now).Publish(now), calls)
    ensures w.FlushChanges(now).FlushFails(now).Publish(now).radio == w.radio
  {
    OpRecords(w.past.failures, FailLog.Flush(now));
    assert Recorded(w.past.failures) + [] == Recorded(w.past.failures);
  }

  /** The calls up to the drive, in their two stretches. */
  lemma ReadyTold(w: World, calls: seq<Call>, oracle: Oracle, now: Time)
    requires Told(w, calls) && Unique(w.tracker.groups)
    ensures Told(w.AtDrive(oracle, now), calls + NewCalls(w, w.AtDrive(oracle, now)))
  {
    hide World.HeartbeatPhase, World.PollPhase, World.SweepPhase, World.Judge, Told, NewCalls, Commands;
    var begun := w.(snapshot := w.snapshot.(ticks := w.snapshot.ticks + 1));
    assert Told(begun, calls) && NewCalls(w, begun) == [] && Extends(w, begun) by {
      BegunTold(w, calls);
    }
    var beaten := begun.HeartbeatPhase(oracle, now);
    var heard := beaten.PollPhase(oracle, now);
    HeartbeatTold(begun, calls, oracle, now);
    HeartbeatFrame(begun, oracle, now);
    PollTold(beaten, calls + NewCalls(begun, beaten), oracle, now);
    PollFrame(beaten, oracle, now);
    var a, b := NewCalls(begun, beaten), NewCalls(beaten, heard);
    Joined(calls, a, b);
    Joined(w.radio.calls, a, b);
    SweepTold(heard, calls + (a + b), now);
    SweepFrame(heard, now);
    CallsBeyond(w, w.AtDrive(oracle, now), a + b);
  }

  lemma BegunTold(w: World, calls: seq<Call>)
    requires Told(w, calls)
    ensures var begun := w.(snapshot := w.snapshot.(ticks := w.snapshot.ticks + 1));
      Told(begun, calls) && NewCalls(w, begun) == [] && Extends(w, begun)
  {
  }

  lemma SweepTold(w: World, calls: seq<Call>, now: Time)
    requires Told(w, calls)
    ensures Told(w.SweepPhase(now).Judge(), calls)
    ensures w.SweepPhase(now).Judge().radio == w.radio
  {
  }

  lemma TickTold(w: World, calls: seq<Call>, oracle: Oracle, now: Time)
    requires Told(w, calls) && Consistent(w, now)
    ensures Told(w.Tick(oracle, now), calls + NewCalls(w, w.Tick(oracle, now)))
  {
    hide World.AtDrive, World.DriveAll, World.RecoverPhase, World.FlushChanges, World.FlushFails, World.Publish;
    hide Told, PartsFit, LogsFit, Plan, Settled, SpeedCalls, NewCalls;
    var ready, driven := w.AtDrive(oracle, now), Driven(w, oracle, now);
    var recovered, after := driven.RecoverPhase(oracle, now), w.Tick(oracle, now);
    ConsistentIsSane(w, now);
    ReadyTold(w, calls, oracle, now);
    AtDriveIs(w, oracle, now);
    AtDriveFits(w, oracle, now);
    ConsistentIsSane(ready, now);
    FansAre(ready.tracker);
    DrivesTold(ready, calls + NewCalls(w, ready), FanMacs(ready), oracle, now);
    DrivenFollows(w, oracle, now);
    RecoveryHolds(ready, now);
    RecoverTold(driven, calls + NewCalls(w, ready) + NewCalls(ready, driven), oracle, now);
    RecoverExtends(driven, oracle, now);
    TickIs(w, oracle, now);
    var a, b, c := NewCalls(w, ready), NewCalls(ready, driven), NewCalls(driven, recovered);
    RestTold(recovered, calls + a + b + c, now);
    ThreeStretches(w, after, a, b, c);
    Joined(calls, a, b);
    Joined(calls, a + b, c);
  }

  lemma RecoverExtends(w: World, oracle: Oracle, now: Time)
    ensures Extends(w, w.RecoverPhase(oracle, now))
  {
    RecoverIs(w, oracle, now);
  }

  /**
    On every run the failures recorded are those the failed calls of the ticks raise, in order and each
    at its instant.
   */
  lemma {:induction false} FailuresAreRecorded(master: Mac, channel: Byte, steps: seq<Step>, oracle: Oracle)
    requires Engine.Timed(steps)
    ensures Told(Engine.Run(master, channel, steps, oracle), TickedCalls(master, channel, steps, oracle))
  {
    if steps != [] {
      hide World.Tick, World.Shutdown, Told, PartsFit, LogsFit, NewCalls;
      FailuresAreRecorded(master, channel, Front(steps), oracle);
      var w := Engine.Run(master, channel, Front(steps), oracle);
      var calls := TickedCalls(master, channel, Front(steps), oracle);
      RunFits(master, channel, Front(steps), oracle);
      LaterFits(w, Engine.Latest(Front(steps)), Engine.Latest(steps));
      match Last(steps) {
        case Asked(request) => AskTold(w, calls, request, oracle);
        case Ticked(now) => TickTold(w, calls, oracle, now);
        case Stopped(now) => StopTold(w, calls, oracle, now);
      }
    } else {
      assert Engine.Run(master, channel, [], oracle) == NewWorld(master, channel);
    }
  }

  lemma AskTold(w: World, calls: seq<Call>, request: Request, oracle: Oracle)
    requires Told(w, calls)
    ensures Told(Engine.Apply(w, Asked(request), oracle), calls)
  {
  }

  lemma StopTold(w: World, calls: seq<Call>, oracle: Oracle, now: Time)
    requires Told(w, calls) && Consistent(w, now)
    ensures Told(w.Shutdown(oracle, now), calls)
  {
    Shutdown.ShutdownIs(w, oracle, now);
    LastSendsRecordNothing(w, FanMacs(w), oracle, now);
  }

  lemma {:induction false} LastSendsRecordNothing(w: World, macs: seq<Mac>, oracle: Oracle, now: Time)
    ensures w.LastSends(macs, oracle, now).past.failures == w.past.failures
  {
    if macs != [] {
      LastSendsRecordNothing(w, Front(macs), oracle, now);
    }
  }

  /** On a run without a stop the ticks made all the calls. */
  lemma {:induction false} TicksMakeTheCalls(master: Mac, channel: Byte, steps: seq<Step>, oracle: Oracle)
    requires Engine.Timed(steps) && forall step :: step in steps ==> !step.Stopped?
    ensures TickedCalls(master, channel, steps, oracle) == Engine.Run(master, channel, steps, oracle).radio.calls
  {
    if steps != [] {
      hide World.Tick, PartsFit, LogsFit;
      assert Last(steps) in steps && forall step :: step in Front(steps) ==> step in steps;
      TicksMakeTheCalls(master, channel, Front(steps), oracle);
      var w := Engine.Run(master, channel, Front(steps), oracle);
      RunFits(master, channel, Front(steps), oracle);
      LaterFits(w, Engine.Latest(Front(steps)), Engine.Latest(steps));
      if Last(steps).Ticked? {
        CommandsArePlanned(w, oracle, Last(steps).at);
      }
    }
  }

  /** How often a failure was raised. */
  function Occurrences(raised: seq<(FailLog.Message, Time)>, m: FailLog.Message): nat {
    if raised == [] then 0 else Occurrences(Front(raised), m) + if Last(raised).0 == m then 1 else 0
  }

  lemma {:induction false} RecordedAreCalls(ops: seq<FailLog.Op>, m: FailLog.Message)
    ensures Occurrences(Recorded(ops), m) == FailLog.Calls(ops, m)
  {
    if ops != [] {
      RecordedAreCalls(Front(ops), m);
      if Last(ops).Fail? {
        assert Front(Recorded(ops)) == Recorded(Front(ops));
      } else {
        assert Recorded(ops) == Recorded(Front(ops));
      }
    }
  }
}
