/** The loop's state between ticks, changed phase by phase over a dongle that may do anything. */
module Core {
  import opened Types
  import opened Seqs
  import opened Groups
  import opened Radio
  import opened Engine
  import Tracking = DeviceTracker
  import EngineHistory
  import Solo
  import Speed
  import Heartbeat
  import Recovery
  import FailLog
  import ChangeLog

  /** The same duty on each of a group's fans. */
  method OnEveryFan(fanCount: Byte, percent: Byte) returns (wanted: Quad)
    ensures wanted == Speed.Uniform(fanCount, percent)
  {
    var duties := new Byte[FANS_PER_GROUP](_ => 0);
    var fans := Min(fanCount, FANS_PER_GROUP);
    for slot := 0 to fans
      invariant forall k :: 0 <= k < FANS_PER_GROUP ==>
        duties[k] == if k < slot then Speed.DutyFromPercent(percent) else 0
    {
      duties[slot] := Speed.DutyFromPercent(percent);
    }
    wanted := duties[..];
  }

  lemma FreedIs(w: World, mac: Mac)
    ensures var v := w.Freed(mac);
      && v.radio == w.radio && v.tracker == w.tracker.Cleared(mac) && v.channel == w.channel
      && v.wanted == w.wanted - {mac}
      && v.beat == w.beat && v.recovery == w.recovery
      && v.lastSkipLog == w.lastSkipLog && v.lastOnline == w.lastOnline
      && v.changes == w.changes && v.failures == w.failures && v.alarm == w.alarm && v.snapshot == w.snapshot
      && v.events == w.events
           + if mac in w.wanted || (w.tracker.Group(mac).Some? && w.tracker.Group(mac).value.target.Some?)
             then [Released(mac)] else []
  {
  }

  /** The state once the dongle is back, before the alarm is judged anew. */
  ghost function Back(w: World, master: Mac, on: Byte, now: Time): World {
    w.(channel := on,
       snapshot := w.snapshot.(masterMac := master, channel := on, reconnects := w.snapshot.reconnects + 1))
      .Recovering(Recovery.Recover(true, now)).Beat(Heartbeat.Renew).Say([Reconnection(master, on)])
  }

  lemma BackIs(w: World, master: Mac, on: Byte, now: Time)
    requires w.recovery.Attempts(now)
    ensures var v := Back(w, master, on, now);
      && v.radio == w.radio && v.tracker == w.tracker && v.channel == on && v.wanted == w.wanted
      && !v.beat.sent && v.beat.last == None
      && v.recovery.failures == 0 && v.recovery.reconnectAt == None && v.recovery.wait == Recovery.FIRST_WAIT
      && v.lastSkipLog == w.lastSkipLog && v.lastOnline == w.lastOnline
      && v.changes == w.changes && v.failures == w.failures && v.alarm == w.alarm
      && v.snapshot
         == w.snapshot.(masterMac := master, channel := on, reconnects := w.snapshot.reconnects + 1)
      && v.events == w.events + [Reconnection(master, on)]
  {
  }

  lemma FailKeepsRecovery(w: World, message: FailLog.Message, now: Time)
    ensures w.Fail(message, now).recovery == w.recovery
  {
  }

  /** The state after these requests. */
  ghost function AskedAll(w: World, requests: seq<Request>, oracle: Oracle): World {
    if requests == [] then w else Engine.Apply(AskedAll(w, Front(requests), oracle), Asked(Last(requests)), oracle)
  }

  class Core {
    const tracker: Tracking.DeviceTracker
    var channel: Byte
    var wanted: map<Mac, Byte>
    var heartbeatSent: bool
    var lastHeartbeat: Option<Time>
    var failuresInARow: nat
    var reconnectAt: Option<Time>
    var reconnectWait: nat
    var lastSkipLog: Option<Time>
    var lastOnline: seq<Mac>
    var changeLog: map<Mac, ChangeLog.Entry>
    var failLog: map<FailLog.Message, FailLog.Entry>
    var alarm: bool
    var snapshot: Snapshot
    var events: seq<Event>

    /** The fields hold the state `w`, of whose events those in `taken` have been taken. */
    ghost predicate Holds(w: World, taken: seq<Event>, link: Link)
      reads this, tracker, link
    {
      && link.Valid() && w.radio == link.View()
      && w.tracker == tracker.View()
      && w.channel == channel && w.wanted == wanted
      && w.beat.sent == heartbeatSent && w.beat.last == lastHeartbeat
      && w.recovery.failures == failuresInARow
      && w.recovery.reconnectAt == reconnectAt && w.recovery.wait == reconnectWait
      && w.lastSkipLog == lastSkipLog && w.lastOnline == lastOnline
      && w.changes.entries == changeLog && w.failures.entries == failLog
      && w.alarm == alarm && w.snapshot == snapshot
      && w.events == taken + events
    }

    constructor (link: Link)
      requires link.Valid() && link.calls == []
      ensures fresh(tracker) && Holds(NewWorld(link.masterMac, link.channel), [], link)
    {
      tracker := new Tracking.DeviceTracker(link.masterMac);
      channel, wanted, heartbeatSent, lastHeartbeat := link.channel, map[], false, None;
      failuresInARow, reconnectAt, reconnectWait := 0, None, Recovery.FIRST_WAIT;
      lastSkipLog, lastOnline, changeLog, failLog, alarm := None, [], map[], map[], false;
      snapshot := Snapshot(link.masterMac, link.channel, 0, 0, 0, 0, 0, false, None, []);
      events := [];
    }

    /** Takes the events logged since the last call. */
    method TakeEvents(ghost w: World, ghost taken: seq<Event>, ghost link: Link) returns (batch: seq<Event>)
      requires Holds(w, taken, link)
      modifies `events
      ensures Holds(w, taken + batch, link) && events == []
    {
      batch, events := events, [];
    }

    /** Asks for a percentage on a group. Takes effect on the next tick. */
    method Want(mac: Mac, percent: Byte, ghost w: World, ghost taken: seq<Event>, ghost link: Link)
      requires Holds(w, taken, link)
      modifies this
      ensures Holds(w.Wanted(mac, percent), taken, link)
    {
      wanted := wanted[mac := Max(FLOOR_PERCENT, Min(percent, 100))];
    }

    /** Stops driving a group. */
    method Release(mac: Mac, ghost w: World, ghost taken: seq<Event>, ghost link: Link)
      requires Holds(w, taken, link)
      modifies this, tracker
      ensures Holds(w.Freed(mac), taken, link)
    {
      hide World.Freed;
      FreedIs(w, mac);
      var asked := mac in wanted;
      wanted := wanted - {mac};
      var driven := tracker.ClearTarget(mac);
      if asked || driven {
        events := events + [Released(mac)];
      }
    }

    /** Records a failure: the first of a kind is logged at once, repeats within a minute are counted. */
    method Fail(message: FailLog.Message, now: Time, ghost w: World, ghost taken: seq<Event>, ghost link: Link)
      requires Holds(w, taken, link)
      modifies this
      ensures Holds(w.Fail(message, now), taken, link)
    {
      snapshot := snapshot.(lastError := Some(message));
      if message in failLog {
        var entry := failLog[message];
        entry := entry.(held := entry.held + 1);
        if Since(now, entry.loggedAt) >= FailLog.REPEAT_LOG_EVERY {
          events := events + [Failure(FailLog.Repeated(message, entry.held, now))];
          entry := FailLog.Entry(now, 0);
        }
        failLog := failLog[message := entry];
      } else {
        failLog := failLog[message := FailLog.Entry(now, 0)];
        events := events + [Failure(FailLog.Once(message, now))];
      }
    }

    method HeartbeatPhase(link: Link, now: Time, ghost w: World, ghost taken: seq<Event>)
      requires Holds(w, taken, link)
      modifies this, link
      ensures Holds(w.HeartbeatPhase(link.oracle, now), taken, link)
    {
      hide World.Fail;
      if lastHeartbeat.Some? && Since(now, lastHeartbeat.value) < Heartbeat.INTERVAL {
        return;
      }
      var error := link.Send(channel, BROADCAST, Beacon(link.masterMac, !heartbeatSent), now);
      ghost var told := w.(radio := link.View()).Beat(Heartbeat.Tick(error.None?, now));
      match error {
        case None => heartbeatSent, lastHeartbeat := true, Some(now);
        case Some(why) => Fail(FailLog.HeartbeatFailed(why), now, told, taken, link);
      }
    }

    /** Counts the records a reply skipped, mentioning them at most once a minute. */
    method NoteSkipped(skipped: Byte, now: Time, ghost w: World, ghost taken: seq<Event>, ghost link: Link)
      requires Holds(w, taken, link)
      modifies this
      ensures Holds(w.SkipNote(skipped, now), taken, link)
    {
      if skipped > 0 {
        snapshot := snapshot.(skippedRecords := snapshot.skippedRecords + skipped);
        if lastSkipLog.None? || Since(now, lastSkipLog.value) >= SKIP_LOG_EVERY {
          lastSkipLog := Some(now);
          events := events + [Skipped(skipped, snapshot.skippedRecords)];
        }
      }
    }

    /** Logs each group online that was not before. */
    method LogArrivals(before: seq<Mac>, ghost w: World, ghost taken: seq<Event>, ghost link: Link)
      requires Holds(w, taken, link)
      modifies `events
      ensures Holds(w.Say(Arrivals(tracker.View().Listed(), before, tracker.masterMac)), taken, link)
    {
      var listed := tracker.OnlineGroups();
      for k := 0 to |listed|
        invariant events == old(events) + Arrivals(listed[..k], before, tracker.masterMac)
        modifies `events
      {
        assert Front(listed[..k + 1]) == listed[..k];
        var g := listed[k];
        if g.Mac() !in before {
          events := events +
            [Online(g.Mac(), g.device.fanCount, g.device.receiver, OwnerOf(g, tracker.masterMac))];
        }
      }
      assert listed[..|listed|] == listed;
    }

    /** Takes in the devices of a reply, logging those that were not online before. */
    method Observe(devices: seq<Device>, now: Time, ghost w: World, ghost taken: seq<Event>, ghost link: Link)
      requires Holds(w, taken, link)
      modifies `events, tracker
      ensures var seen := w.Track(Solo.Observe(devices, now));
        Holds(seen.Say(Arrivals(seen.tracker.Listed(), Macs(w.tracker.Listed()), w.tracker.masterMac)), taken, link)
    {
      var listed := tracker.OnlineGroups();
      var before := Macs(listed);
      tracker.Observe(devices, now);
      LogArrivals(before, w.Track(Solo.Observe(devices, now)), taken, link);
    }

    /** A poll got through: whatever was wrong with the dongle is over. */
    method NotePolled(now: Time, ghost w: World, ghost after: Radio, ghost taken: seq<Event>, ghost link: Link)
      requires Holds(w.(radio := after), taken, link)
      modifies `snapshot, `failuresInARow, `reconnectAt, `reconnectWait
      ensures var told := w.(radio := after).Recovering(Recovery.Poll(true));
        Holds(told.(snapshot := w.snapshot.(polls := w.snapshot.polls + 1)), taken, link)
    {
      snapshot := snapshot.(polls := snapshot.polls + 1);
      failuresInARow, reconnectAt, reconnectWait := 0, None, Recovery.FIRST_WAIT;
    }

    method NotePollFailed(error: string, now: Time, ghost w: World, ghost after: Radio,
                          ghost taken: seq<Event>, ghost link: Link)
      requires Holds(w.(radio := after), taken, link)
      modifies this
      ensures var told := w.(radio := after).Recovering(Recovery.Poll(false));
        var counted := told.(snapshot := w.snapshot.(pollFailures := w.snapshot.pollFailures + 1));
        Holds(counted.Fail(FailLog.PollFailed(error), now), taken, link)
    {
      hide World.Fail;
      snapshot := snapshot.(pollFailures := snapshot.pollFailures + 1);
      failuresInARow := failuresInARow + 1;
      ghost var told := w.(radio := after).Recovering(Recovery.Poll(false));
      Fail(FailLog.PollFailed(error), now, told.(snapshot := snapshot), taken, link);
    }

    method PollPhase(link: Link, now: Time, ghost w: World, ghost taken: seq<Event>)
      requires Holds(w, taken, link)
      modifies this, tracker, link
      ensures Holds(w.PollPhase(link.oracle, now), taken, link)
    {
      hide World.SkipNote, World.Fail, World.Track, World.Say;
      var result := link.Poll(now);
      ghost var after := link.View();
      match result {
        case Ok(reply) =>
          NotePolled(now, w, after, taken, link);
          ghost var told := w.(radio := after).Recovering(Recovery.Poll(true));
          ghost var counted := told.(snapshot := w.snapshot.(polls := w.snapshot.polls + 1));
          NoteSkipped(reply.skipped, now, counted, taken, link);
          EngineHistory.SkipNoteKeeps(counted, reply.skipped, now);
          Observe(reply.devices, now, counted.SkipNote(reply.skipped, now), taken, link);
        case Err(error) => NotePollFailed(error, now, w, after, taken, link);
      }
    }

    /** Logs each fan group that was online, is not, and is still remembered. */
    method LogSilences(before: seq<Mac>, after: seq<Mac>, gone: seq<Mac>,
                       ghost w: World, ghost taken: seq<Event>, ghost link: Link)
      requires Holds(w, taken, link)
      modifies `events
      ensures Holds(w.Say(Silences(before, after, gone, tracker.View())), taken, link)
    {
      for k := 0 to |before|
        invariant events == old(events) + Silences(before[..k], after, gone, tracker.View())
        modifies `events
      {
        assert Front(before[..k + 1]) == before[..k];
        if before[k] !in after && before[k] !in gone {
          var i := tracker.Find(before[k]);
          if i < |tracker.groups| && tracker.groups[i].BoundTo(tracker.masterMac) && tracker.groups[i].HasFans() {
            events := events + [Unheard(before[k])];
          }
        }
      }
      assert before[..|before|] == before;
    }

    /** Logs each group forgotten. */
    method LogFarewells(departures: seq<(Mac, bool)>, ghost forgotten: seq<Group>,
                        ghost w: World, ghost taken: seq<Event>, ghost link: Link)
      requires Holds(w, taken, link) && departures == Tracking.Departures(forgotten, tracker.masterMac)
      modifies `events
      ensures Holds(w.Say(Farewells(forgotten, tracker.masterMac, wanted)), taken, link)
    {
      for k := 0 to |departures|
        invariant events == old(events) + Farewells(forgotten[..k], tracker.masterMac, wanted)
        modifies `events
      {
        assert Front(forgotten[..k + 1]) == forgotten[..k];
        var (mac, bound) := departures[k];
        events := events + [if bound then Forgotten(mac, mac in wanted) else Gone(mac)];
      }
      assert forgotten[..|departures|] == forgotten;
    }

    /** Drops quiet groups from the slot order and forgets those quiet for too long, logging both. */
    method SweepPhase(now: Time, ghost w: World, ghost taken: seq<Event>, ghost link: Link)
      requires Holds(w, taken, link)
      modifies this, tracker
      ensures Holds(w.SweepPhase(now), taken, link)
    {
      var before := lastOnline;
      ghost var forgotten := tracker.View().Forgotten(now);
      var departures := tracker.Sweep(now);
      var listed := tracker.OnlineGroups();
      lastOnline := Macs(listed);
      ghost var swept := w.Track(Solo.Sweep(now)).(lastOnline := lastOnline);
      var gone := seq(|departures|, i requires 0 <= i < |departures| => departures[i].0);
      assert gone == Macs(forgotten);
      LogSilences(before, lastOnline, gone, swept, taken, link);
      ghost var told := swept.Say(Silences(before, lastOnline, gone, tracker.View()));
      LogFarewells(departures, forgotten, told, taken, link);
    }

    method Judge(ghost w: World, ghost taken: seq<Event>, ghost link: Link)
      requires Holds(w, taken, link)
      modifies this
      ensures Holds(w.Judge(), taken, link)
    {
      var lost := failuresInARow >= Recovery.POLL_FAILURES;
      if lost != alarm {
        events := events + [if lost then FailsafeRaised else FailsafeCleared];
        alarm := lost;
      }
    }

    /** Logs a target change, at most one line per group in ten seconds; a change in between is held. */
    method LogChange(mac: Mac, change: ChangeLog.Change, now: Time,
                     ghost w: World, ghost taken: seq<Event>, ghost link: Link)
      requires Holds(w, taken, link)
      modifies this
      ensures Holds(w.Change(mac, change, now), taken, link)
    {
      var held := 0;
      if mac in changeLog {
        var entry := changeLog[mac];
        if Since(now, entry.loggedAt) < ChangeLog.CHANGE_LOG_EVERY {
          changeLog := changeLog[mac := entry.(held := entry.held + 1, pending := Some(change))];
          return;
        }
        held := entry.held;
      }
      changeLog := changeLog[mac := ChangeLog.Entry(now, 0, None)];
      events := events + [TargetChange(ChangeLog.Prompt(mac, ChangeLog.Note(change, held), now))];
    }

    /** Sends the group's target if it is due. */
    method SendIfDue(link: Link, mac: Mac, now: Time, ghost w: World, ghost taken: seq<Event>)
      requires Holds(w, taken, link)
      modifies this, tracker, link
      ensures Holds(w.SendIfDue(mac, link.oracle, now), taken, link)
    {
      hide World.Fail;
      var i := tracker.Find(mac);
      if i == |tracker.groups| || !tracker.groups[i].Due(now) {
        return;
      }
      var device, target := tracker.groups[i].device, tracker.groups[i].target.value;
      var slot := tracker.Slot(mac);
      var command := Command(device.mac, link.masterMac, device.receiver, channel, slot, target);
      var error := link.Send(device.channel, device.receiver, Duties(command), now);
      match error {
        case None => tracker.Sent(mac, now);
        case Some(why) => Fail(FailLog.SendFailed(mac, why), now, w.(radio := link.View()), taken, link);
      }
    }

    method DriveOne(link: Link, mac: Mac, now: Time, ghost w: World, ghost taken: seq<Event>)
      requires Holds(w, taken, link)
      modifies this, tracker, link
      ensures Holds(w.DriveOne(mac, link.oracle, now), taken, link)
    {
      hide World.SendIfDue, World.Change, Speed.Uniform, Speed.Prepared;
      if !alarm && mac !in wanted {
        return;
      }
      var percent := if alarm then FAILSAFE_PERCENT else wanted[mac];
      var i := tracker.Find(mac);
      if i == |tracker.groups| {
        return;
      }
      var fanCount, previous := tracker.groups[i].device.fanCount, tracker.groups[i].target;
      var wish := OnEveryFan(fanCount, percent);
      var target := tracker.SetTarget(mac, wish);
      ghost var aimed := w.Track(Solo.Target(mac, wish));
      if previous != target {
        var change := ChangeLog.Change(percent, Shown(fanCount, target.value));
        LogChange(mac, change, now, aimed, taken, link);
        aimed := aimed.Change(mac, change, now);
      }
      SendIfDue(link, mac, now, aimed, taken);
    }

    method DrivePhase(link: Link, now: Time, ghost w: World, ghost taken: seq<Event>)
      requires Holds(w, taken, link)
      modifies this, tracker, link
      ensures Holds(w.DrivePhase(link.oracle, now), taken, link)
    {
      hide World.DriveOne;
      var fans := tracker.FanGroups();
      var macs := Macs(fans);
      for k := 0 to |macs|
        invariant Holds(w.DriveAll(macs[..k], link.oracle, now), taken, link)
      {
        assert Front(macs[..k + 1]) == macs[..k];
        DriveOne(link, macs[k], now, w.DriveAll(macs[..k], link.oracle, now), taken);
      }
      assert macs[..|macs|] == macs;
    }

    /** The dongle is back, perhaps with another address or on another channel. */
    method TakeBack(link: Link, now: Time, ghost w: World, ghost taken: seq<Event>)
      requires Holds(w, taken, link) && w.recovery.Attempts(now)
      modifies this
      ensures Holds(Back(w, link.masterMac, link.channel, now), taken, link)
    {
      hide Back;
      BackIs(w, link.masterMac, link.channel, now);
      channel := link.channel;
      snapshot := snapshot.(
        masterMac := link.masterMac, channel := link.channel, reconnects := snapshot.reconnects + 1);
      failuresInARow, reconnectAt, reconnectWait := 0, None, Recovery.FIRST_WAIT;
      heartbeatSent, lastHeartbeat := false, None;
      events := events + [Reconnection(link.masterMac, link.channel)];
    }

    /** The dongle is still lost: the next attempt waits twice as long, up to a minute. */
    method WaitLonger(now: Time, ghost w: World, ghost taken: seq<Event>, ghost link: Link)
      requires Holds(w, taken, link) && w.recovery.Attempts(now)
      modifies `reconnectAt, `reconnectWait
      ensures Holds(w.Recovering(Recovery.Recover(false, now)), taken, link)
    {
      reconnectAt := Some(now + reconnectWait);
      reconnectWait := Min(reconnectWait * 2, Recovery.MAX_WAIT);
    }

    /** While the dongle is lost, tries to reconnect it: at once, then after waits that double up to a minute. */
    method RecoverPhase(link: Link, now: Time, ghost w: World, ghost taken: seq<Event>)
      requires Holds(w, taken, link)
      modifies this, link
      ensures Holds(w.RecoverPhase(link.oracle, now), taken, link)
    {
      hide World.Fail, World.Judge, World.Recovering, World.Beat, World.Say;
      if failuresInARow < Recovery.POLL_FAILURES {
        return;
      }
      if reconnectAt.Some? && now < reconnectAt.value {
        return;
      }
      var everyChannel := reconnectWait >= Recovery.MAX_WAIT;
      var result := link.Reconnect(everyChannel, now);
      ghost var tried := w.(radio := link.View());
      match result {
        case Ok(_) =>
          TakeBack(link, now, tried, taken);
          Judge(Back(tried, link.masterMac, link.channel, now), taken, link);
        case Err(error) =>
          var message := FailLog.ReconnectFailed(everyChannel, error, reconnectWait / SECOND);
          Fail(message, now, tried, taken, link);
          FailKeepsRecovery(tried, message, now);
          WaitLonger(now, tried.Fail(message, now), taken, link);
      }
    }

    /** Takes the held changes whose time is up out of the log. */
    method TakeRipe(now: Time, ghost log: ChangeLog.State) returns (notes: map<Mac, ChangeLog.Note>)
      requires log.entries == changeLog
      modifies `changeLog
      ensures notes == log.Due(now) && changeLog == log.Flushed(now).entries
    {
      notes := map[];
      var left := changeLog.Keys;
      while left != {}
        invariant left <= log.entries.Keys == changeLog.Keys
        invariant forall m :: m in changeLog ==>
          changeLog[m] == if m in left then log.entries[m] else log.Flushed(now).entries[m]
        invariant forall m :: m in notes <==> m in log.Due(now) && m !in left
        invariant forall m :: m in notes ==> notes[m] == log.Due(now)[m]
      {
        var mac: Mac :| mac in left;
        left := left - {mac};
        var entry := changeLog[mac];
        if entry.pending.Some? && Since(now, entry.loggedAt) >= ChangeLog.CHANGE_LOG_EVERY {
          notes := notes[mac := ChangeLog.Note(entry.pending.value, Max(entry.held - 1, 0))];
          changeLog := changeLog[mac := ChangeLog.Entry(now, 0, None)];
        }
      }
    }

    /** Writes the held changes whose time is up. */
    method FlushChanges(now: Time, ghost w: World, ghost taken: seq<Event>, ghost link: Link)
      requires Holds(w, taken, link)
      modifies `changeLog, `events
      ensures Holds(w.FlushChanges(now), taken, link)
    {
      hide ChangeLog.State.Due;
      var notes := TakeRipe(now, w.changes);
      if notes != map[] {
        events := events + [TargetChange(ChangeLog.Overdue(notes, now))];
      }
    }

    /** Drops the kinds of failure not seen for a minute, with the counts they still held. */
    method TakeExpired(now: Time, ghost log: FailLog.State) returns (counts: map<FailLog.Message, nat>)
      requires log.entries == failLog
      modifies `failLog
      ensures counts == log.Due(now) && failLog == log.Flushed(now).entries
    {
      counts := map[];
      var left := failLog.Keys;
      while left != {}
        invariant left <= failLog.Keys <= log.entries.Keys
        invariant forall m :: m in failLog <==> m in left || m in log.Flushed(now).entries
        invariant forall m :: m in failLog ==> failLog[m] == log.entries[m]
        invariant forall m :: m in counts <==> m in log.Due(now) && m !in left
        invariant forall m :: m in counts ==> counts[m] == log.Due(now)[m]
      {
        var message: FailLog.Message :| message in left;
        left := left - {message};
        var entry := failLog[message];
        if Since(now, entry.loggedAt) >= FailLog.REPEAT_LOG_EVERY {
          if entry.held > 0 {
            counts := counts[message := entry.held];
          }
          failLog := failLog - {message};
        }
      }
    }

    /** Writes the counts of failures whose time is up, and drops those kinds. */
    method FlushFails(now: Time, ghost w: World, ghost taken: seq<Event>, ghost link: Link)
      requires Holds(w, taken, link)
      modifies `failLog, `events
      ensures Holds(w.FlushFails(now), taken, link)
    {
      hide FailLog.State.Due;
      var counts := TakeExpired(now, w.failures);
      if counts != map[] {
        events := events + [Failure(FailLog.Overdue(counts, now))];
      }
    }

    /** The published groups: the online ones in slot order, then the others as first heard. */
    method GroupStates(now: Time) returns (states: seq<GroupState>)
      ensures states == PublishedStates(tracker.View(), now)
    {
      var fans := tracker.FanGroups();
      states := [];
      for k := 0 to |fans|
        invariant states == OnlineStates(fans[..k], now)
      {
        states := states + [OnlineState(fans[k], now)];
      }
      assert fans[..|fans|] == fans;
      ghost var keep := (g: Group) => g.BoundTo(tracker.masterMac) && g.HasFans() && !g.Online(now);
      for k := 0 to |tracker.groups|
        invariant states == OnlineStates(fans, now) + OfflineStates(Filter(tracker.groups[..k], keep))
      {
        assert Front(tracker.groups[..k + 1]) == tracker.groups[..k];
        var g := tracker.groups[k];
        if g.BoundTo(tracker.masterMac) && g.HasFans() && !g.Online(now) {
          states := states + [OfflineState(g)];
        }
      }
      assert tracker.groups[..|tracker.groups|] == tracker.groups;
    }

    method Publish(now: Time, ghost w: World, ghost taken: seq<Event>, ghost link: Link)
      requires Holds(w, taken, link)
      modifies this
      ensures Holds(w.Publish(now), taken, link)
    {
      var states := GroupStates(now);
      snapshot := snapshot.(alarm := alarm, groups := states);
    }

    /** One pass of the loop, at `now`. */
    method Tick(link: Link, now: Time, ghost w: World, ghost taken: seq<Event>)
      requires Holds(w, taken, link)
      modifies this, tracker, link
      ensures Holds(w.Tick(link.oracle, now), taken, link)
    {
      hide World.HeartbeatPhase, World.PollPhase, World.SweepPhase, World.Judge, World.DrivePhase, World.RecoverPhase;
      hide World.FlushChanges, World.FlushFails, World.Publish;
      snapshot := snapshot.(ticks := snapshot.ticks + 1);
      ghost var begun := w.(snapshot := snapshot);
      HeartbeatPhase(link, now, begun, taken);
      ghost var beaten := begun.HeartbeatPhase(link.oracle, now);
      PollPhase(link, now, beaten, taken);
      ghost var heard := beaten.PollPhase(link.oracle, now);
      SweepPhase(now, heard, taken, link);
      ghost var swept := heard.SweepPhase(now);
      Judge(swept, taken, link);
      ghost var ready := swept.Judge();
      DrivePhase(link, now, ready, taken);
      ghost var driven := ready.DrivePhase(link.oracle, now);
      RecoverPhase(link, now, driven, taken);
      ghost var recovered := driven.RecoverPhase(link.oracle, now);
      FlushChanges(now, recovered, taken, link);
      ghost var flushed := recovered.FlushChanges(now);
      FlushFails(now, flushed, taken, link);
      Publish(now, flushed.FlushFails(now), taken, link);
    }

    /** One turn of the worker: the requests taken from the queue, one after the other, then a tick. */
    method Turn(link: Link, batch: seq<Request>, started: Time, ghost w: World, ghost taken: seq<Event>)
      requires Holds(w, taken, link)
      modifies this, tracker, link
      ensures Holds(AskedAll(w, batch, link.oracle).Tick(link.oracle, started), taken, link)
    {
      hide World.Tick, World.Wanted, World.Freed;
      for i := 0 to |batch|
        invariant Holds(AskedAll(w, batch[..i], link.oracle), taken, link)
      {
        assert Front(batch[..i + 1]) == batch[..i];
        ghost var so := AskedAll(w, batch[..i], link.oracle);
        match batch[i] {
          case Want(mac, percent) => Want(mac, percent, so, taken, link);
          case Release(mac) => Release(mac, so, taken, link);
        }
      }
      assert batch[..|batch|] == batch;
      Tick(link, started, AskedAll(w, batch, link.oracle), taken);
    }

    /** Sends one group's target a last time unless it is seen applied. */
    method LastSend(link: Link, mac: Mac, now: Time, ghost w: World, ghost taken: seq<Event>)
      requires Holds(w, taken, link)
      modifies this, tracker, link
      ensures Holds(w.LastSend(mac, link.oracle, now), taken, link)
    {
      var i := tracker.Find(mac);
      if i == |tracker.groups| || tracker.groups[i].target.None? || tracker.groups[i].IsAcknowledged(now) {
        return;
      }
      var device, target := tracker.groups[i].device, tracker.groups[i].target.value;
      var slot := tracker.Slot(mac);
      var command := Command(device.mac, link.masterMac, device.receiver, channel, slot, target);
      var error := link.Send(device.channel, device.receiver, Duties(command), now);
      if error.None? {
        tracker.Sent(mac, now);
      }
    }

    /** Sends every group's current target one last time and records the stop. */
    method Shutdown(link: Link, now: Time, ghost w: World, ghost taken: seq<Event>)
      requires Holds(w, taken, link)
      modifies this, tracker, link
      ensures Holds(w.Shutdown(link.oracle, now), taken, link)
    {
      hide World.LastSend, World.Publish;
      var fans := tracker.FanGroups();
      var macs := Macs(fans);
      for k := 0 to |macs|
        invariant Holds(w.LastSends(macs[..k], link.oracle, now), taken, link)
      {
        assert Front(macs[..k + 1]) == macs[..k];
        LastSend(link, macs[k], now, w.LastSends(macs[..k], link.oracle, now), taken);
      }
      assert macs[..|macs|] == macs;
      events := events + [Stopping];
      Publish(now, w.LastSends(macs, link.oracle, now).Say([Stopping]), taken, link);
    }
  }
}
