/**
  The promises of the parts, on every run of the whole engine and in terms of what can be seen of
  it: the calls made to the dongle, the events logged and the snapshot.
 */
module Runs {
  import opened Types
  import opened Groups
  import opened Radio
  import opened Engine
  import opened EngineHistory
  import opened Drive
  import opened EngineTick
  import opened TickTheorems
  import opened Debounce
  import EngineTrace
  import FailTrace
  import LogNames
  import QuietTicks
  import Ready
  import Snapshots
  import Shutdown
  import Standing
  import Solo
  import History
  import SlotOrder
  import Unacknowledged
  import Heartbeat
  import Recovery
  import FailLog
  import ChangeLog
  import Speed

  /** Every byte of the command leaves its slot off or drives it at 30 % or more. */
  ghost predicate IsSafe(command: Command) {
    forall slot :: 0 <= slot < FANS_PER_GROUP ==> Speed.SafeDuty(command.duty[slot])
  }

  ghost predicate AllSafe(commands: seq<Command>) {
    forall command :: command in commands ==> IsSafe(command)
  }

  // The floor.

  /** Whatever was asked and whatever failed before, a tick's commands drive each of a group's fans at 30 % or more. */
  lemma EveryTickKeepsFloor(master: Mac, channel: Byte, steps: seq<Step>, now: Time, oracle: Oracle, command: Command)
    requires Engine.Timed(steps) && Engine.Latest(steps) <= now
    requires command in TickCommands(Engine.Run(master, channel, steps, oracle), oracle, now)
    ensures var after := Engine.Run(master, channel, steps, oracle).Tick(oracle, now);
      && after.tracker.Group(command.mac).Some?
      && Speed.DrivesAllFans(after.tracker.Group(command.mac).value.device, command.duty)
  {
    hide World.Tick, PartsFit, LogsFit, TickCommands;
    var w := Engine.Run(master, channel, steps, oracle);
    RunFits(master, channel, steps, oracle);
    LaterFits(w, Engine.Latest(steps), now);
    TickKeepsFloor(w, oracle, now, command);
  }

  lemma TickIsSafe(w: World, oracle: Oracle, now: Time)
    requires Consistent(w, now)
    ensures AllSafe(TickCommands(w, oracle, now))
  {
    hide World.Tick, PartsFit, LogsFit, TickCommands;
    forall command | command in TickCommands(w, oracle, now) ensures IsSafe(command) {
      TickKeepsFloor(w, oracle, now, command);
    }
  }

  lemma CommandsGrow(w: World, v: World)
    requires Extends(w, v) && AllSafe(Commands(w.radio.calls)) && AllSafe(Commands(NewCalls(w, v)))
    ensures AllSafe(Commands(v.radio.calls))
  {
    CommandsConcat(w.radio.calls, NewCalls(w, v));
  }

  lemma StepIsSafe(w: World, step: Step, oracle: Oracle, now: Time)
    requires Consistent(w, now) && Standing.SafeTargets(w.tracker) && AllSafe(Commands(w.radio.calls))
    requires !step.Asked? ==> step.at == now
    ensures AllSafe(Commands(Engine.Apply(w, step, oracle).radio.calls))
  {
    hide World.Tick, World.Shutdown, PartsFit, LogsFit, IsSafe;
    match step {
      case Asked(request) =>
      case Ticked(at) =>
        CommandsArePlanned(w, oracle, at);
        TickIsSafe(w, oracle, at);
        CommandsGrow(w, w.Tick(oracle, at));
      case Stopped(at) =>
        Shutdown.ShutdownIs(w, oracle, at);
        StopIsSafe(w, oracle, at);
        CommandsGrow(w, w.Shutdown(oracle, at));
    }
  }

  lemma StopIsSafe(w: World, oracle: Oracle, now: Time)
    requires Consistent(w, now) && Standing.SafeTargets(w.tracker)
    ensures AllSafe(Commands(NewCalls(w, w.Shutdown(oracle, now))))
  {
    Standing.ShutdownKeepsTargetsSafe(w, oracle, now);
  }

  /** No command ever sent, by a tick or by a stop, holds a duty below the floor other than off. */
  lemma {:induction false} EveryCommandIsSafe(master: Mac, channel: Byte, steps: seq<Step>, oracle: Oracle)
    requires Engine.Timed(steps)
    ensures AllSafe(Commands(Engine.Run(master, channel, steps, oracle).radio.calls))
  {
    if steps != [] {
      hide Engine.Apply, PartsFit, LogsFit, Standing.SafeTargets, IsSafe;
      EveryCommandIsSafe(master, channel, Front(steps), oracle);
      var w := Engine.Run(master, channel, Front(steps), oracle);
      RunFits(master, channel, Front(steps), oracle);
      LaterFits(w, Engine.Latest(Front(steps)), Engine.Latest(steps));
      Standing.RunKeepsTargetsSafe(master, channel, Front(steps), oracle);
      StepIsSafe(w, Last(steps), oracle, Engine.Latest(steps));
    }
  }

  // The heartbeat and the reconnect attempts, in the trace of calls.

  lemma TraceIs(master: Mac, channel: Byte, steps: seq<Step>, oracle: Oracle)
    requires Engine.Timed(steps)
    ensures var w := Engine.Run(master, channel, steps, oracle);
      && EngineTrace.Beats(w.radio.calls) == Heartbeat.Run(w.past.beats).acts && Heartbeat.Timed(w.past.beats)
      && EngineTrace.Trials(w.radio.calls) == Recovery.Run(w.past.recovery).acts
      && EngineTrace.Replies(w.radio.calls) == EngineTrace.Observed(w.past.tracker)
      && w.beat == Heartbeat.Run(w.past.beats) && w.recovery == Recovery.Run(w.past.recovery)
  {
    RunFits(master, channel, steps, oracle);
    EngineTrace.RunAgrees(master, channel, steps, oracle);
  }

  /** In the trace of calls, the k-th failed attempt of a streak keeps its distance from the first. */
  lemma AttemptsBackOff(master: Mac, channel: Byte, steps: seq<Step>, oracle: Oracle, k: nat)
    requires Engine.Timed(steps)
    requires 1 <= k <= |Recovery.Streak(EngineTrace.Trials(Engine.Run(master, channel, steps, oracle).radio.calls))|
    ensures var streak := Recovery.Streak(EngineTrace.Trials(Engine.Run(master, channel, steps, oracle).radio.calls));
      && streak[0].Attempt? && streak[k - 1].Attempt?
      && streak[k - 1].at >= streak[0].at + Recovery.Earliest(k)
      && (streak[k - 1].everyChannel <==> k >= 6)
  {
    TraceIs(master, channel, steps, oracle);
    Recovery.Backoff(Engine.Run(master, channel, steps, oracle).past.recovery, k);
  }

  /** In the trace of calls, every reconnect, successful or not, came while the dongle was lost and kept the pace. */
  lemma ReconnectsKeepPace(master: Mac, channel: Byte, steps: seq<Step>, oracle: Oracle, j: nat)
    requires Engine.Timed(steps)
    requires j < |EngineTrace.Trials(Engine.Run(master, channel, steps, oracle).radio.calls)|
    ensures Recovery.Kept(EngineTrace.Trials(Engine.Run(master, channel, steps, oracle).radio.calls), j)
  {
    hide Recovery.Kept;
    TraceIs(master, channel, steps, oracle);
    Recovery.EveryAttemptKeepsPace(Engine.Run(master, channel, steps, oracle).past.recovery);
  }

  /**
    After any run a tick reconnects exactly if, in the trace of calls and its own poll, three polls
    or more have failed since the last success, and the wait after the last failed attempt since
    then, if there was one, is over.
   */
  lemma ReconnectsIff(master: Mac, channel: Byte, steps: seq<Step>, oracle: Oracle, now: Time)
    requires Engine.Timed(steps) && Engine.Latest(steps) <= now
    ensures var w := Engine.Run(master, channel, steps, oracle);
      var acts := EngineTrace.Trials(w.radio.calls) + [Recovery.Polled(Ready.Answered(w, oracle, now).Ok?)];
      (exists call :: call in NewCalls(w, w.Tick(oracle, now)) && call.Reconnected?) <==> Ready.AttemptDue(acts, now)
  {
    hide World.Tick, PartsFit, LogsFit, Ready.AttemptDue, Ready.Answered, NewCalls;
    var w := Engine.Run(master, channel, steps, oracle);
    RunFits(master, channel, steps, oracle);
    LaterFits(w, Engine.Latest(steps), now);
    EngineTrace.RunAgrees(master, channel, steps, oracle);
    Ready.ReconnectsIff(w, oracle, now);
  }

  /** After any run, a tick a second or more later sends to exactly the groups it drives that are to be driven. */
  lemma EveryTickSends(master: Mac, channel: Byte, steps: seq<Step>, oracle: Oracle, now: Time, mac: Mac)
    requires Engine.Timed(steps) && Engine.Latest(steps) + SECOND <= now
    ensures var w := Engine.Run(master, channel, steps, oracle);
      var ready := w.AtDrive(oracle, now);
      (exists command :: command in TickCommands(w, oracle, now) && command.mac == mac)
      <==> mac in FanMacs(ready) && (ready.alarm || mac in w.wanted)
  {
    hide World.Tick, World.AtDrive, PartsFit, LogsFit, TickCommands, FanMacs;
    RunFits(master, channel, steps, oracle);
    Ready.EveryTickSends(Engine.Run(master, channel, steps, oracle), oracle, Engine.Latest(steps), now, mac);
  }

  /**
    In the trace of calls, a heartbeat is in init form exactly when none got through since the start
    or the last reconnect, and one that gets through is a second or more after the last that did.
   */
  lemma HeartbeatsKeepTime(master: Mac, channel: Byte, steps: seq<Step>, oracle: Oracle, j: nat)
    requires Engine.Timed(steps)
    requires j < |EngineTrace.Beats(Engine.Run(master, channel, steps, oracle).radio.calls)|
    requires EngineTrace.Beats(Engine.Run(master, channel, steps, oracle).radio.calls)[j].Beat?
    ensures var beats := EngineTrace.Beats(Engine.Run(master, channel, steps, oracle).radio.calls);
      var earlier := Heartbeat.LastSuccess(beats[..j]);
      && (beats[j].first <==> earlier.None?)
      && (beats[j].ok && earlier.Some? ==> beats[j].at - earlier.value >= SECOND)
  {
    TraceIs(master, channel, steps, oracle);
    Heartbeat.HeartbeatTrace(Engine.Run(master, channel, steps, oracle).past.beats, j);
  }

  /** The engine once a tick has counted itself and sent its heartbeat, if one was due. */
  function PastHeartbeat(w: World, oracle: Oracle, now: Time): World {
    w.(snapshot := w.snapshot.(ticks := w.snapshot.ticks + 1)).HeartbeatPhase(oracle, now)
  }

  /** The trace and the heartbeat's own memory agree there too. */
  lemma PastHeartbeatFits(w: World, oracle: Oracle, now: Time)
    requires Consistent(w, now) && EngineTrace.Agrees(w)
    ensures var v := PastHeartbeat(w, oracle, now);
      && Consistent(v, now) && EngineTrace.Agrees(v)
      && v.beat == w.beat.Beaten(oracle(|w.radio.calls|).sendError.None?, now)
      && v.radio.calls <= w.Tick(oracle, now).radio.calls
      && v.radio.calls == w.radio.calls + if !w.beat.Due(now) then [] else
           [Sent(w.channel, BROADCAST, Beacon(w.radio.masterMac, !w.beat.sent), oracle(|w.radio.calls|).sendError, now)]
  {
    hide World.Fail, PartsFit, LogsFit, EngineTrace.Agrees, World.Tick;
    var begun := w.(snapshot := w.snapshot.(ticks := w.snapshot.ticks + 1));
    SameFits(w, begun, now);
    HeartbeatPhaseFits(begun, oracle, now);
    SameTrace(w, begun);
    EngineTrace.HeartbeatAgrees(begun, oracle, now);
    HeartbeatFrame(begun, oracle, now);
    BeatIs(w, oracle, now);
    TickGoesOn(w, oracle, now);
  }

  lemma BeatIs(w: World, oracle: Oracle, now: Time)
    ensures PastHeartbeat(w, oracle, now).beat == w.beat.Beaten(oracle(|w.radio.calls|).sendError.None?, now)
  {
  }

  lemma SameTrace(w: World, v: World)
    requires EngineTrace.Agrees(w)
    requires v.radio == w.radio && v.past == w.past && v.beat == w.beat && v.recovery == w.recovery
    ensures EngineTrace.Agrees(v)
  {
  }

  /** What the heartbeat has called, the whole tick has called. */
  lemma TickGoesOn(w: World, oracle: Oracle, now: Time)
    requires Consistent(w, now)
    ensures PastHeartbeat(w, oracle, now).radio.calls <= w.Tick(oracle, now).radio.calls
  {
    hide World.HeartbeatPhase, World.PollPhase, World.SweepPhase, World.Judge, World.Tick, PartsFit, LogsFit;
    var beaten := PastHeartbeat(w, oracle, now);
    PollFrame(beaten, oracle, now);
    SweepFrame(beaten.PollPhase(oracle, now), now);
    CommandsArePlanned(w, oracle, now);
    TickShape(w, oracle, now);
    assert w.AtDrive(oracle, now).radio.calls == beaten.PollPhase(oracle, now).radio.calls;
  }

  /**
    On every run, past its heartbeat a tick's trace of calls holds a heartbeat that got through less
    than a second ago, or the tick has just sent one that failed.
   */
  lemma EveryTickIsAlive(master: Mac, channel: Byte, steps: seq<Step>, oracle: Oracle, now: Time)
    requires Engine.Timed(steps) && Engine.Latest(steps) <= now
    ensures var w := Engine.Run(master, channel, steps, oracle);
      var calls := PastHeartbeat(w, oracle, now).radio.calls;
      var alive := Heartbeat.LastSuccess(EngineTrace.Beats(calls));
      && calls <= w.Tick(oracle, now).radio.calls
      && (|| (alive.Some? && 0 <= now - alive.value < SECOND)
          || (calls != [] && Last(calls).Sent? && Last(calls).payload.Beacon?
              && Last(calls).error.Some? && Last(calls).at == now))
  {
    hide PartsFit, LogsFit, World.Tick, PastHeartbeat;
    var w := Engine.Run(master, channel, steps, oracle);
    RunFits(master, channel, steps, oracle);
    LaterFits(w, Engine.Latest(steps), now);
    EngineTrace.RunAgrees(master, channel, steps, oracle);
    PastHeartbeatFits(w, oracle, now);
    BeatHolds(w, now);
    Heartbeat.TickIsAlive(w.past.beats, oracle(|w.radio.calls|).sendError.None?, now);
  }

  lemma BeatHolds(w: World, now: Time)
    requires Consistent(w, now)
    ensures w.beat == Heartbeat.Run(w.past.beats)
    ensures Heartbeat.Timed(w.past.beats) && Heartbeat.Latest(w.past.beats) <= now
    ensures Heartbeat.Fits(w.beat, now)
  {
    Heartbeat.RunFits(w.past.beats);
  }

  // The alarm.

  lemma StepKeepsAlarm(w: World, step: Step, oracle: Oracle, now: Time)
    requires Consistent(w, now) && (!step.Asked? ==> step.at == now)
    requires w.alarm <==> Recovery.FailedPolls(w.recovery.acts) >= 3
    ensures var v := Engine.Apply(w, step, oracle);
      v.alarm <==> Recovery.FailedPolls(v.recovery.acts) >= 3
  {
    hide World.Tick, World.Shutdown, PartsFit, LogsFit;
    match step {
      case Asked(request) =>
      case Ticked(at) => AlarmAfterTick(w, oracle, at);
      case Stopped(at) => Shutdown.ShutdownIs(w, oracle, at);
    }
  }

  /** Between any two steps the alarm is set exactly when three polls or more have failed since the last success. */
  lemma {:induction false} AlarmIsThreeFailures(master: Mac, channel: Byte, steps: seq<Step>, oracle: Oracle)
    requires Engine.Timed(steps)
    ensures var w := Engine.Run(master, channel, steps, oracle);
      && (w.alarm <==> Recovery.FailedPolls(EngineTrace.Trials(w.radio.calls)) >= 3)
      && (w.alarm <==> Recovery.FailedPolls(w.recovery.acts) >= 3)
  {
    EngineTrace.RunAgrees(master, channel, steps, oracle);
    if steps != [] {
      hide Engine.Apply, PartsFit, LogsFit;
      AlarmIsThreeFailures(master, channel, Front(steps), oracle);
      var w := Engine.Run(master, channel, Front(steps), oracle);
      RunFits(master, channel, Front(steps), oracle);
      LaterFits(w, Engine.Latest(Front(steps)), Engine.Latest(steps));
      StepKeepsAlarm(w, Last(steps), oracle, Engine.Latest(steps));
    }
  }

  // The two logs, in the events.

  /**
    Every failed heartbeat, poll, send and reconnect of every tick, told by its text, is in one line
    logged or still held; and three lines of one text span a minute. Without a stop, those are all
    the failed calls there are.
   */
  lemma FailuresAreLogged(master: Mac, channel: Byte, steps: seq<Step>, oracle: Oracle, m: FailLog.Message)
    requires Engine.Timed(steps)
    ensures var w := Engine.Run(master, channel, steps, oracle);
      var calls := FailTrace.TickedCalls(master, channel, steps, oracle);
      var about := FailLog.About(FailureLines(w.events), m);
      && FailTrace.Occurrences(FailTrace.Raised(calls), m)
         == FailLog.Accounted(FailureLines(w.events), m) + FailLog.Held(w.failures.entries, m)
      && (forall i, k :: 0 <= i < k - 1 < |about| - 1 ==> about[k].at - about[i].at >= 60 * SECOND)
      && ((forall step :: step in steps ==> !step.Stopped?) ==> calls == w.radio.calls)
  {
    RunFits(master, channel, steps, oracle);
    var w := Engine.Run(master, channel, steps, oracle);
    FailLog.EveryFailureIsAccountedFor(w.past.failures, m);
    FailTrace.FailuresAreRecorded(master, channel, steps, oracle);
    FailTrace.RecordedAreCalls(w.past.failures, m);
    if forall step :: step in steps ==> !step.Stopped? {
      FailTrace.TicksMakeTheCalls(master, channel, steps, oracle);
    }
    var about := FailLog.About(w.failures.lines, m);
    forall i, k | 0 <= i < k - 1 < |about| - 1 ensures about[k].at - about[i].at >= 60 * SECOND {
      FailLog.ThreeLinesSpanAMinute(w.past.failures, m, i, i + 1, k);
    }
  }

  /**
    The promise of one line a minute per failure is kept by a run exactly if no failure came less
    than a minute after a flush wrote its count.
   */
  lemma OneLineAMinuteIff(master: Mac, channel: Byte, steps: seq<Step>, oracle: Oracle, m: FailLog.Message)
    requires Engine.Timed(steps)
    ensures var w := Engine.Run(master, channel, steps, oracle);
      FailLog.MinuteApart(FailLog.About(FailureLines(w.events), m)) <==> FailLog.NeverTooSoon(w.past.failures, m)
  {
    RunFits(master, channel, steps, oracle);
    FailLog.OneLineAMinuteIff(Engine.Run(master, channel, steps, oracle).past.failures, m);
  }

  /**
    A group's target lines are ten seconds apart and account, with what is held, for every tick of
    the run whose drive changed its target.
   */
  lemma ChangesAreLogged(master: Mac, channel: Byte, steps: seq<Step>, oracle: Oracle, mac: Mac)
    requires Engine.Timed(steps)
    ensures var w := Engine.Run(master, channel, steps, oracle);
      var about := ChangeLog.About(ChangeLines(w.events), mac);
      && ChangeLog.Spaced(about)
      && LogNames.Retargeted(master, channel, steps, oracle, mac) == ChangeLog.Accounted(ChangeLines(w.events), mac)
           + (if mac in w.changes.entries then w.changes.entries[mac].held else 0)
      && (mac in w.changes.entries ==>
            (w.changes.entries[mac].pending.Some? <==> w.changes.entries[mac].held > 0))
  {
    RunFits(master, channel, steps, oracle);
    LogNames.EveryChangeIsRecorded(master, channel, steps, oracle, mac);
    ChangeLog.RunSound(Engine.Run(master, channel, steps, oracle).past.changes, mac);
  }

  /** After a tick no failure kept is a minute old and no pending change is ten seconds old. */
  lemma TickLeavesNothingOverdue(w: World, oracle: Oracle, now: Time)
    ensures var v := w.Tick(oracle, now);
      && (forall m :: m in v.failures.entries ==> Since(now, v.failures.entries[m].loggedAt) < 60 * SECOND)
      && (forall mac :: mac in v.changes.entries && v.changes.entries[mac].pending.Some? ==>
            Since(now, v.changes.entries[mac].loggedAt) < 10 * SECOND)
  {
    hide World.AtDrive, World.DrivePhase, World.RecoverPhase;
    TickIs(w, oracle, now);
    var u := Driven(w, oracle, now).RecoverPhase(oracle, now);
    FlushesLast(u, now);
  }

  lemma FlushesLast(u: World, now: Time)
    ensures var v := u.FlushChanges(now).FlushFails(now).Publish(now);
      && (forall m :: m in v.failures.entries ==> Since(now, v.failures.entries[m].loggedAt) < 60 * SECOND)
      && (forall mac :: mac in v.changes.entries && v.changes.entries[mac].pending.Some? ==>
            Since(now, v.changes.entries[mac].loggedAt) < 10 * SECOND)
  {
    ChangeLog.FlushLeavesNothingRipe(u.changes, now);
    FailLog.FlushLeavesNothingOld(u.FlushChanges(now).failures, now);
  }

  // The tracker, in the replies received.

  /** The sightings of one address in these replies. */
  function Sightings(replies: seq<(seq<Device>, Time)>, mac: Mac): seq<Sighting<Device>> {
    if replies == [] then []
    else Sightings(Front(replies), mac) + History.Mine(Last(replies).0, mac, Last(replies).1)
  }

  lemma {:induction false} SightingsAreHeard(ops: seq<Solo.Op>, mac: Mac)
    ensures Sightings(EngineTrace.Observed(ops), mac) == History.Heard(ops, mac)
  {
    if ops != [] {
      SightingsAreHeard(Front(ops), mac);
      if Last(ops).Observe? {
        assert Front(EngineTrace.Observed(ops)) == EngineTrace.Observed(Front(ops));
      } else {
        assert EngineTrace.Observed(ops) == EngineTrace.Observed(Front(ops));
      }
    }
  }

  /**
    What the engine believes of a device is what the replies received confirm: its identity and its
    shape, each on its own, are the value of the latest three equal sightings in a row since the last
    silence of more than 15 seconds, or the first since then.
   */
  lemma RepliesDecide(master: Mac, channel: Byte, steps: seq<Step>, oracle: Oracle, g: Group)
    requires Engine.Timed(steps) && g in Engine.Run(master, channel, steps, oracle).tracker.groups
    ensures var calls := Engine.Run(master, channel, steps, oracle).radio.calls;
      var heard := Sightings(EngineTrace.Replies(calls), g.Mac());
      && heard != [] && g.lastSeen == Last(heard).at
      && g.device == WithShape(WithIdentity(Last(heard).value, IdentityOf(g.device)), ShapeOf(g.device))
      && Confirms(History.Identities(heard), IdentityOf(g.device))
      && Confirms(History.Shapes(heard), ShapeOf(g.device))
  {
    var w := Engine.Run(master, channel, steps, oracle);
    RunFits(master, channel, steps, oracle);
    TraceIs(master, channel, steps, oracle);
    SightingsAreHeard(w.past.tracker, g.Mac());
    History.Debounced(w.tracker.masterMac, w.past.tracker, g);
  }

  /**
    After any run and a tick, every record published shows the group as last heard: its duties, and
    its speeds if that was in the last 15 seconds, are those of the last sighting of its address in
    the replies; its count of sends is that of its history.
   */
  lemma SnapshotShows(master: Mac, channel: Byte, steps: seq<Step>, oracle: Oracle, now: Time, i: nat)
    requires Engine.Timed(steps + [Ticked(now)])
    requires i < |Engine.Run(master, channel, steps + [Ticked(now)], oracle).snapshot.groups|
    ensures var w := Engine.Run(master, channel, steps + [Ticked(now)], oracle);
      var state := w.snapshot.groups[i];
      var heard := Sightings(EngineTrace.Replies(w.radio.calls), state.mac);
      && heard != []
      && state.online == (Since(now, Last(heard).at) <= 15 * SECOND)
      && state.duty == Last(heard).value.duty
      && state.rpm == (if state.online then Last(heard).value.rpm else [0, 0, 0, 0])
      && state.unacknowledged == Unacknowledged.SendsSince(w.tracker.masterMac, w.past.tracker, state.mac)
  {
    hide World.Tick, PartsFit, LogsFit, Engine.Run, Sightings, EngineTrace.Replies, Speed.Matches;
    var before := Engine.Run(master, channel, steps, oracle);
    var w := Engine.Run(master, channel, steps + [Ticked(now)], oracle);
    QuietTicks.MoreTimed(steps, Ticked(now));
    QuietTicks.OneMoreTick(master, channel, steps, now, oracle);
    RunFits(master, channel, steps, oracle);
    LaterFits(before, Engine.Latest(steps), now);
    Snapshots.TickShows(before, oracle, now, i);
    var g := w.tracker.Group(w.snapshot.groups[i].mac).value;
    Solo.GetIn(w.tracker.groups, w.snapshot.groups[i].mac);
    RepliesDecide(master, channel, steps + [Ticked(now)], oracle, g);
    OrderAndCounts(master, channel, steps + [Ticked(now)], oracle, g);
  }

  /** The slot order, and the count of unconfirmed sends, are what their histories make them. */
  lemma OrderAndCounts(master: Mac, channel: Byte, steps: seq<Step>, oracle: Oracle, g: Group)
    requires Engine.Timed(steps) && g in Engine.Run(master, channel, steps, oracle).tracker.groups
    ensures var w := Engine.Run(master, channel, steps, oracle);
      && SlotOrder.OrderFits(w.tracker.order, w.past.tracker)
      && g.unacknowledged == Unacknowledged.SendsSince(w.tracker.masterMac, w.past.tracker, g.Mac())
      && g.lastSent == Unacknowledged.LastSent(w.tracker.masterMac, w.past.tracker, g.Mac())
  {
    var w := Engine.Run(master, channel, steps, oracle);
    RunFits(master, channel, steps, oracle);
    SlotOrder.RunOrdered(w.tracker.masterMac, w.past.tracker);
    Unacknowledged.CountsSends(w.tracker.masterMac, w.past.tracker, g);
  }

  /** A group forgotten and heard again is driven in that very tick at the percentage last asked of it. */
  lemma ReturningGroupIsDriven(w: World, oracle: Oracle, now: Time, g: Group)
    requires Consistent(w, now) && g in w.Tick(oracle, now).tracker.DrivenFans()
    requires w.tracker.Group(g.Mac()).None? && g.Mac() in w.wanted && !w.AtDrive(oracle, now).alarm
    ensures var duty := Speed.Prepared(g.device, Speed.Uniform(g.device.fanCount, w.wanted[g.Mac()]));
      && g.target == Some(duty)
      && exists command :: command in TickCommands(w, oracle, now) && command.mac == g.Mac() && command.duty == duty
  {
    hide World.Tick, World.AtDrive, PartsFit, LogsFit, TickCommands, Speed.Prepared, Speed.Uniform;
    TargetDetermined(w, oracle, now, g);
    ChangedTargetIsSent(w, oracle, now, g);
  }
}
