/** Whatever a run does, each part of the engine is where its own history of operations puts it. */
module EngineHistory {
  import opened Types
  import opened Groups
  import opened Radio
  import opened Engine
  import Solo
  import History
  import Speed
  import Heartbeat
  import Recovery
  import FailLog
  import ChangeLog

  /** The failure lines among the events. */
  function FailureLines(events: seq<Event>): seq<FailLog.Line> {
    if events == [] then []
    else FailureLines(Front(events)) + if Last(events).Failure? then [Last(events).failure] else []
  }

  /** The target lines among the events. */
  function ChangeLines(events: seq<Event>): seq<ChangeLog.Line> {
    if events == [] then []
    else ChangeLines(Front(events)) + if Last(events).TargetChange? then [Last(events).change] else []
  }

  /** The tracker, the two timers and the wishes are what their histories make them. */
  ghost predicate PartsFit(w: World, now: Time) {
    && w.tracker == Solo.Run(w.tracker.masterMac, w.past.tracker)
    && History.Timed(w.past.tracker) && History.Latest(w.past.tracker) <= now
    && w.beat == Heartbeat.Run(w.past.beats)
    && Heartbeat.Timed(w.past.beats) && Heartbeat.Latest(w.past.beats) <= now
    && w.recovery == Recovery.Run(w.past.recovery)
    && w.wanted == Wishes(w.past.requests)
  }

  /** So are the two logs, and the events hold exactly their lines. */
  ghost predicate LogsFit(w: World, now: Time) {
    && w.changes == ChangeLog.Run(w.past.changes)
    && ChangeLog.Timed(w.past.changes) && ChangeLog.Latest(w.past.changes) <= now
    && w.failures == FailLog.Run(w.past.failures)
    && FailLog.Timed(w.past.failures) && FailLog.Latest(w.past.failures) <= now
    && FailureLines(w.events) == w.failures.lines
    && ChangeLines(w.events) == w.changes.lines
  }

  ghost predicate Consistent(w: World, now: Time) {
    PartsFit(w, now) && LogsFit(w, now)
  }

  predicate Quiet(events: seq<Event>) {
    forall e :: e in events ==> !e.Failure? && !e.TargetChange?
  }

  lemma {:induction false} LinesGrow(events: seq<Event>, more: seq<Event>)
    ensures FailureLines(events + more) == FailureLines(events) + FailureLines(more)
    ensures ChangeLines(events + more) == ChangeLines(events) + ChangeLines(more)
  {
    if more == [] {
      assert events + more == events;
    } else {
      assert Front(events + more) == events + Front(more);
      LinesGrow(events, Front(more));
    }
  }

  lemma {:induction false} QuietHasNoLines(more: seq<Event>)
    requires Quiet(more)
    ensures FailureLines(more) == [] && ChangeLines(more) == []
  {
    if more != [] {
      QuietHasNoLines(Front(more));
    }
  }

  /** One more line, or none: the events follow the log. */
  lemma LineFollows(events: seq<Event>, e: Event)
    ensures FailureLines(events + [e]) == FailureLines(events) + if e.Failure? then [e.failure] else []
    ensures ChangeLines(events + [e]) == ChangeLines(events) + if e.TargetChange? then [e.change] else []
    ensures events + [] == events
  {
    assert Front(events + [e]) == events;
  }

  lemma SayFits(w: World, more: seq<Event>, now: Time)
    requires Consistent(w, now) && Quiet(more)
    ensures Consistent(w.Say(more), now)
  {
    LinesGrow(w.events, more);
    QuietHasNoLines(more);
  }

  lemma TrackFits(w: World, op: Solo.Op, now: Time)
    requires Consistent(w, now) && (History.HasTime(op) ==> op.at == now)
    ensures Consistent(w.Track(op), now)
  {
    assert Front(w.past.tracker + [op]) == w.past.tracker;
    assert Solo.Apply(w.tracker, op).masterMac == w.tracker.masterMac;
  }

  lemma BeatFits(w: World, op: Heartbeat.Op, now: Time)
    requires Consistent(w, now) && (op.Tick? ==> op.at == now)
    ensures Consistent(w.Beat(op), now)
  {
    assert Front(w.past.beats + [op]) == w.past.beats;
  }

  lemma RecoveringFits(w: World, op: Recovery.Op, now: Time)
    requires Consistent(w, now)
    ensures Consistent(w.Recovering(op), now)
  {
    assert Front(w.past.recovery + [op]) == w.past.recovery;
  }

  /** The parts fit as long as they and their histories stay as they are. */
  lemma SameParts(w: World, v: World, now: Time)
    requires PartsFit(w, now)
    requires v.tracker == w.tracker && v.beat == w.beat && v.recovery == w.recovery && v.wanted == w.wanted
    requires v.past == w.past.(changes := v.past.changes, failures := v.past.failures)
    ensures PartsFit(v, now)
  {
  }

  lemma FailFits(w: World, message: FailLog.Message, now: Time)
    requires Consistent(w, now)
    ensures Consistent(w.Fail(message, now), now)
  {
    hide PartsFit;
    SameParts(w, w.Fail(message, now), now);
    var op, after := FailLog.Fail(message, now), w.failures.Failed(message, now);
    assert Front(w.past.failures + [op]) == w.past.failures;
    LineFollows(w.events, if |after.lines| > |w.failures.lines| then Failure(Last(after.lines)) else Stopping);
  }

  lemma FlushFailsFits(w: World, now: Time)
    requires Consistent(w, now)
    ensures Consistent(w.FlushFails(now), now)
  {
    var after := w.failures.Flushed(now);
    assert Front(w.past.failures + [FailLog.Flush(now)]) == w.past.failures;
    LineFollows(w.events, if |after.lines| > |w.failures.lines| then Failure(Last(after.lines)) else Stopping);
  }

  lemma ChangeFits(w: World, mac: Mac, change: ChangeLog.Change, now: Time)
    requires Consistent(w, now)
    ensures Consistent(w.Change(mac, change, now), now)
  {
    hide PartsFit;
    SameParts(w, w.Change(mac, change, now), now);
    var op, after := ChangeLog.Record(mac, change, now), w.changes.Changed(mac, change, now);
    assert Front(w.past.changes + [op]) == w.past.changes;
    LineFollows(w.events, if |after.lines| > |w.changes.lines| then TargetChange(Last(after.lines)) else Stopping);
  }

  lemma FlushChangesFits(w: World, now: Time)
    requires Consistent(w, now)
    ensures Consistent(w.FlushChanges(now), now)
  {
    var after := w.changes.Flushed(now);
    assert Front(w.past.changes + [ChangeLog.Flush(now)]) == w.past.changes;
    LineFollows(w.events, if |after.lines| > |w.changes.lines| then TargetChange(Last(after.lines)) else Stopping);
  }

  lemma AskFits(w: World, request: Request, wishes: map<Mac, Byte>, now: Time)
    requires Consistent(w, now) && wishes == Wishes(w.past.requests + [request])
    ensures Consistent(w.Ask(request, wishes), now)
  {
  }

  lemma HeartbeatPhaseFits(w: World, oracle: Oracle, now: Time)
    requires Consistent(w, now)
    ensures Consistent(w.HeartbeatPhase(oracle, now), now)
  {
    if w.beat.Due(now) {
      var (after, error) := w.radio.Send(oracle, w.channel, BROADCAST, Beacon(w.radio.masterMac, !w.beat.sent), now);
      var sent := w.(radio := after);
      BeatFits(sent, Heartbeat.Tick(error.None?, now), now);
      if error.Some? {
        FailFits(sent.Beat(Heartbeat.Tick(error.None?, now)), FailLog.HeartbeatFailed(error.value), now);
      }
    }
  }

  lemma {:induction false} ArrivalsAreQuiet(listed: seq<Group>, before: seq<Mac>, master: Mac)
    ensures Quiet(Arrivals(listed, before, master))
  {
    if listed != [] {
      ArrivalsAreQuiet(Front(listed), before, master);
    }
  }

  lemma {:induction false} SilencesAreQuiet(before: seq<Mac>, after: seq<Mac>, gone: seq<Mac>, tracker: Tracker)
    ensures Quiet(Silences(before, after, gone, tracker))
  {
    if before != [] {
      SilencesAreQuiet(Front(before), after, gone, tracker);
    }
  }

  lemma {:induction false} FarewellsAreQuiet(forgotten: seq<Group>, master: Mac, wanted: map<Mac, Byte>)
    ensures Quiet(Farewells(forgotten, master, wanted))
  {
    if forgotten != [] {
      FarewellsAreQuiet(Front(forgotten), master, wanted);
    }
  }

  /** A reply taken in, the counters aside. */
  lemma ObserveFits(w: World, devices: seq<Device>, before: seq<Mac>, now: Time)
    requires Consistent(w, now)
    ensures var seen := w.Track(Solo.Observe(devices, now));
      Consistent(seen.Say(Arrivals(seen.tracker.Listed(), before, w.tracker.masterMac)), now)
  {
    TrackFits(w, Solo.Observe(devices, now), now);
    var seen := w.Track(Solo.Observe(devices, now));
    ArrivalsAreQuiet(seen.tracker.Listed(), before, w.tracker.masterMac);
    SayFits(seen, Arrivals(seen.tracker.Listed(), before, w.tracker.masterMac), now);
  }

  lemma PollPhaseFits(w: World, oracle: Oracle, now: Time)
    requires Consistent(w, now)
    ensures Consistent(w.PollPhase(oracle, now), now)
  {
    hide World.Fail, World.SkipNote, World.Track, World.Say;
    var (after, result) := w.radio.Poll(oracle, now);
    SameFits(w, w.(radio := after), now);
    RecoveringFits(w.(radio := after), Recovery.Poll(result.Ok?), now);
    var told := w.(radio := after).Recovering(Recovery.Poll(result.Ok?));
    match result {
      case Err(error) =>
        var counted := told.(snapshot := w.snapshot.(pollFailures := w.snapshot.pollFailures + 1));
        SameFits(told, counted, now);
        FailFits(counted, FailLog.PollFailed(error), now);
      case Ok(reply) =>
        var counted := told.(snapshot := w.snapshot.(polls := w.snapshot.polls + 1));
        SameFits(told, counted, now);
        SkipNoteFits(counted, reply.skipped, now);
        var noted := counted.SkipNote(reply.skipped, now);
        SkipNoteKeeps(counted, reply.skipped, now);
        ObserveFits(noted, reply.devices, Macs(w.tracker.Listed()), now);
    }
  }

  lemma SkipNoteKeeps(w: World, skipped: Byte, now: Time)
    ensures w.SkipNote(skipped, now).tracker == w.tracker
  {
  }

  lemma SkipNoteFits(w: World, skipped: Byte, now: Time)
    requires Consistent(w, now)
    ensures Consistent(w.SkipNote(skipped, now), now)
  {
    var total := w.snapshot.skippedRecords + skipped;
    var counted := w.(snapshot := w.snapshot.(skippedRecords := total));
    var noted := counted.(lastSkipLog := Some(now));
    SameFits(w, counted, now);
    SameFits(w, noted, now);
    if skipped == 0 {
      assert w.SkipNote(skipped, now) == w;
    } else if w.lastSkipLog.None? || Since(now, w.lastSkipLog.value) >= SKIP_LOG_EVERY {
      SayFits(noted, [Skipped(skipped, total)], now);
      assert w.SkipNote(skipped, now) == noted.Say([Skipped(skipped, total)]);
    } else {
      assert w.SkipNote(skipped, now) == counted;
    }
  }

  /** Consistency is about the parts and their histories: the rest of the engine does not matter to it. */
  lemma SameFits(w: World, v: World, now: Time)
    requires Consistent(w, now)
    requires v.tracker == w.tracker && v.beat == w.beat && v.recovery == w.recovery && v.wanted == w.wanted
    requires v.changes == w.changes && v.failures == w.failures && v.events == w.events && v.past == w.past
    ensures Consistent(v, now)
  {
  }

  lemma SweepPhaseFits(w: World, now: Time)
    requires Consistent(w, now)
    ensures Consistent(w.SweepPhase(now), now)
  {
    var swept := w.Track(Solo.Sweep(now));
    TrackFits(w, Solo.Sweep(now), now);
    var after := Macs(swept.tracker.Listed());
    var silences := Silences(w.lastOnline, after, Macs(w.tracker.Forgotten(now)), swept.tracker);
    SilencesAreQuiet(w.lastOnline, after, Macs(w.tracker.Forgotten(now)), swept.tracker);
    SayFits(swept.(lastOnline := after), silences, now);
    FarewellsAreQuiet(w.tracker.Forgotten(now), w.tracker.masterMac, w.wanted);
    var farewells := Farewells(w.tracker.Forgotten(now), w.tracker.masterMac, w.wanted);
    SayFits(swept.(lastOnline := after).Say(silences), farewells, now);
  }

  lemma JudgeFits(w: World, now: Time)
    requires Consistent(w, now)
    ensures Consistent(w.Judge(), now)
  {
    SayFits(w.(alarm := w.recovery.Lost()), [if w.recovery.Lost() then FailsafeRaised else FailsafeCleared], now);
  }

  lemma SendIfDueFits(w: World, mac: Mac, oracle: Oracle, now: Time)
    requires Consistent(w, now)
    ensures Consistent(w.SendIfDue(mac, oracle, now), now)
  {
    hide World.Track, World.CommandFor, World.Fail;
    var g := w.tracker.Group(mac);
    if g.Some? && g.value.Due(now) {
      var device := g.value.device;
      var command := w.CommandFor(mac, device, g.value.target.value);
      var (after, error) := w.radio.Send(oracle, device.channel, device.receiver, Duties(command), now);
      if error.None? {
        TrackFits(w.(radio := after), Solo.Deliver(mac, now), now);
      } else {
        FailFits(w.(radio := after), FailLog.SendFailed(mac, error.value), now);
      }
    }
  }

  lemma DriveOneFits(w: World, mac: Mac, oracle: Oracle, now: Time)
    requires Consistent(w, now)
    ensures Consistent(w.DriveOne(mac, oracle, now), now)
  {
    hide World.Track, World.SendIfDue, World.Change;
    var percent, g := w.PercentFor(mac), w.tracker.Group(mac);
    if percent.Some? && g.Some? {
      var fanCount := g.value.device.fanCount;
      var wish := Speed.Uniform(fanCount, percent.value);
      var target := Speed.Prepared(g.value.device, wish);
      var aimed := w.Track(Solo.Target(mac, wish));
      TrackFits(w, Solo.Target(mac, wish), now);
      var change := ChangeLog.Change(percent.value, Shown(fanCount, target));
      ChangeFits(aimed, mac, change, now);
      SendIfDueFits(if g.value.target == Some(target) then aimed else aimed.Change(mac, change, now), mac, oracle, now);
    }
  }

  lemma {:induction false} DriveAllFits(w: World, macs: seq<Mac>, oracle: Oracle, now: Time)
    requires Consistent(w, now)
    ensures Consistent(w.DriveAll(macs, oracle, now), now)
  {
    if macs != [] {
      DriveAllFits(w, Front(macs), oracle, now);
      DriveOneFits(w.DriveAll(Front(macs), oracle, now), Last(macs), oracle, now);
    }
  }

  lemma BackFits(w: World, on: Byte, master: Mac, now: Time)
    requires Consistent(w, now)
    ensures var back := w.Recovering(Recovery.Recover(true, now)).Beat(Heartbeat.Renew).Say([Reconnection(master, on)]);
      Consistent(back.Judge(), now)
  {
    hide World.Judge;
    RecoveringFits(w, Recovery.Recover(true, now), now);
    var recovered := w.Recovering(Recovery.Recover(true, now));
    BeatFits(recovered, Heartbeat.Renew, now);
    SayFits(recovered.Beat(Heartbeat.Renew), [Reconnection(master, on)], now);
    JudgeFits(recovered.Beat(Heartbeat.Renew).Say([Reconnection(master, on)]), now);
  }

  lemma StillLostFits(w: World, message: FailLog.Message, now: Time)
    requires Consistent(w, now)
    ensures Consistent(w.Fail(message, now).Recovering(Recovery.Recover(false, now)), now)
  {
    FailFits(w, message, now);
    RecoveringFits(w.Fail(message, now), Recovery.Recover(false, now), now);
  }

  lemma RecoverPhaseFits(w: World, oracle: Oracle, now: Time)
    requires Consistent(w, now)
    ensures Consistent(w.RecoverPhase(oracle, now), now)
  {
    hide World.Judge, World.Fail, World.Recovering, World.Beat, World.Say;
    if w.recovery.Attempts(now) {
      var (after, result) := w.radio.Reconnect(oracle, w.recovery.EveryChannel(), now);
      match result {
        case Ok((master, on)) =>
          var moved := w.(radio := after, channel := on,
            snapshot := w.snapshot.(masterMac := master, channel := on, reconnects := w.snapshot.reconnects + 1));
          SameFits(w, moved, now);
          BackFits(moved, on, master, now);
        case Err(error) =>
          var message := FailLog.ReconnectFailed(w.recovery.EveryChannel(), error, w.recovery.wait / SECOND);
          SameFits(w, w.(radio := after), now);
          StillLostFits(w.(radio := after), message, now);
      }
    }
  }

  lemma HeardFits(w: World, oracle: Oracle, now: Time)
    requires Consistent(w, now)
    ensures Consistent(w.Heard(oracle, now), now)
  {
    hide World.HeartbeatPhase, World.PollPhase;
    var begun := w.(snapshot := w.snapshot.(ticks := w.snapshot.ticks + 1));
    SameFits(w, begun, now);
    HeartbeatPhaseFits(begun, oracle, now);
    PollPhaseFits(begun.HeartbeatPhase(oracle, now), oracle, now);
  }

  lemma AtDriveFits(w: World, oracle: Oracle, now: Time)
    requires Consistent(w, now)
    ensures Consistent(w.AtDrive(oracle, now), now)
  {
    HeardFits(w, oracle, now);
    SweepPhaseFits(w.Heard(oracle, now), now);
    JudgeFits(w.Heard(oracle, now).SweepPhase(now), now);
  }

  lemma TickFits(w: World, oracle: Oracle, now: Time)
    requires Consistent(w, now)
    ensures Consistent(w.Tick(oracle, now), now)
  {
    AtDriveFits(w, oracle, now);
    var ready := w.AtDrive(oracle, now);
    DriveAllFits(ready, Macs(ready.tracker.DrivenFans()), oracle, now);
    var driven := ready.DrivePhase(oracle, now);
    RecoverPhaseFits(driven, oracle, now);
    var recovered := driven.RecoverPhase(oracle, now);
    FlushChangesFits(recovered, now);
    FlushFailsFits(recovered.FlushChanges(now), now);
    var flushed := recovered.FlushChanges(now).FlushFails(now);
    SameFits(flushed, flushed.Publish(now), now);
    assert w.Tick(oracle, now) == flushed.Publish(now);
  }

  lemma {:induction false} LastSendsFit(w: World, macs: seq<Mac>, oracle: Oracle, now: Time)
    requires Consistent(w, now)
    ensures Consistent(w.LastSends(macs, oracle, now), now)
  {
    if macs != [] {
      LastSendsFit(w, Front(macs), oracle, now);
      LastSendFits(w.LastSends(Front(macs), oracle, now), Last(macs), oracle, now);
    }
  }

  lemma LastSendFits(w: World, mac: Mac, oracle: Oracle, now: Time)
    requires Consistent(w, now)
    ensures Consistent(w.LastSend(mac, oracle, now), now)
  {
    hide World.Track, World.CommandFor;
    var g := w.tracker.Group(mac);
    if g.Some? && g.value.target.Some? && !g.value.IsAcknowledged(now) {
      var command := w.CommandFor(mac, g.value.device, g.value.target.value);
      var (after, error) :=
        w.radio.Send(oracle, g.value.device.channel, g.value.device.receiver, Duties(command), now);
      TrackFits(w.(radio := after), Solo.Deliver(mac, now), now);
    }
  }

  lemma ShutdownFits(w: World, oracle: Oracle, now: Time)
    requires Consistent(w, now)
    ensures Consistent(w.Shutdown(oracle, now), now)
  {
    LastSendsFit(w, Macs(w.tracker.DrivenFans()), oracle, now);
    SayFits(w.LastSends(Macs(w.tracker.DrivenFans()), oracle, now), [Stopping], now);
  }

  lemma WantedFits(w: World, mac: Mac, percent: Byte, now: Time)
    requires Consistent(w, now)
    ensures Consistent(w.Wanted(mac, percent), now)
  {
    assert Front(w.past.requests + [Want(mac, percent)]) == w.past.requests;
    AskFits(w, Want(mac, percent), w.wanted[mac := Clamped(percent)], now);
  }

  lemma FreedFits(w: World, mac: Mac, now: Time)
    requires Consistent(w, now)
    ensures Consistent(w.Freed(mac), now)
  {
    hide World.Say, World.Track, World.Ask;
    assert Front(w.past.requests + [Release(mac)]) == w.past.requests;
    AskFits(w, Release(mac), w.wanted - {mac}, now);
    var asked := w.Ask(Release(mac), w.wanted - {mac});
    TrackFits(asked, Solo.Clear(mac), now);
    SayFits(asked.Track(Solo.Clear(mac)), [Released(mac)], now);
    SayFits(asked.Track(Solo.Clear(mac)), [], now);
  }

  lemma LaterFits(w: World, before: Time, now: Time)
    requires Consistent(w, before) && before <= now
    ensures Consistent(w, now)
  {
  }

  /** Over every run, on a dongle that does anything at all. */
  lemma {:induction false} RunFits(master: Mac, channel: Byte, steps: seq<Step>, oracle: Oracle)
    requires Engine.Timed(steps)
    ensures Consistent(Engine.Run(master, channel, steps, oracle), Engine.Latest(steps))
  {
    hide World.Wanted, World.Freed, World.Tick, World.Shutdown;
    if steps != [] {
      RunFits(master, channel, Front(steps), oracle);
      var w := Engine.Run(master, channel, Front(steps), oracle);
      LaterFits(w, Engine.Latest(Front(steps)), Engine.Latest(steps));
      match Last(steps) {
        case Asked(Want(mac, percent)) => WantedFits(w, mac, percent, Engine.Latest(steps));
        case Asked(Release(mac)) => FreedFits(w, mac, Engine.Latest(steps));
        case Ticked(now) => TickFits(w, oracle, now);
        case Stopped(now) => ShutdownFits(w, oracle, now);
      }
    }
  }
}
