/**
  The lines the engine logs, other than those its two rate-limited logs write, and the last failure
  it publishes: which a step writes, and what they say, told by what was asked, answered and seen.
 */
module Journal {
  import opened Types
  import opened Seqs
  import opened Groups
  import opened Radio
  import opened Engine
  import opened EngineHistory
  import opened Drive
  import opened Roster
  import opened EngineTick
  import opened TickTheorems
  import opened Ready
  import Solo
  import Speed
  import Heartbeat
  import Recovery
  import FailLog
  import ChangeLog
  import FailTrace
  import Notices

  predicate IsNote(e: Event) {
    !e.Failure? && !e.TargetChange?
  }

  /** The lines that are not one of the two logs'. */
  function Notes(events: seq<Event>): seq<Event> {
    Filter(events, IsNote)
  }

  lemma NotesAdd(a: seq<Event>, b: seq<Event>)
    ensures Notes(a + b) == Notes(a) + Notes(b)
  {
    FilterConcat(a, b, IsNote);
  }

  lemma AllNotes(events: seq<Event>)
    requires forall i :: 0 <= i < |events| ==> IsNote(events[i])
    ensures Notes(events) == events
  {
    FilterAll(events, IsNote);
  }

  /** At most one line of a log. */
  lemma NoNote(events: seq<Event>, more: seq<Event>)
    requires |more| <= 1 && forall i :: 0 <= i < |more| ==> !IsNote(more[i])
    ensures Notes(events + more) == Notes(events)
  {
    NotesAdd(events, more);
    if more != [] {
      assert Front(more) == [];
    }
  }

  /** The last failure told of. */
  function LastFailure(failures: seq<(FailLog.Message, Time)>): Option<FailLog.Message> {
    if failures == [] then None else Some(Last(failures).0)
  }

  ghost predicate ShowsLastFailure(w: World) {
    w.snapshot.lastError == LastFailure(FailTrace.Recorded(w.past.failures))
  }

  /** A step that writes no note. */
  ghost predicate Quietly(w: World, v: World) {
    && Notes(v.events) == Notes(w.events)
    && v.lastOnline == w.lastOnline && v.lastSkipLog == w.lastSkipLog
    && (ShowsLastFailure(w) ==> ShowsLastFailure(v))
  }

  lemma FailQuietly(w: World, message: FailLog.Message, now: Time)
    ensures Quietly(w, w.Fail(message, now))
  {
    hide Notes;
    FailTrace.FailRecords(w, message, now);
    var after := w.failures.Failed(message, now);
    NoNote(w.events, if |after.lines| > |w.failures.lines| then [Failure(Last(after.lines))] else []);
  }

  lemma ChangeQuietly(w: World, mac: Mac, change: ChangeLog.Change, now: Time)
    ensures Quietly(w, w.Change(mac, change, now))
  {
    hide Notes;
    var after := w.changes.Changed(mac, change, now);
    NoNote(w.events, if |after.lines| > |w.changes.lines| then [TargetChange(Last(after.lines))] else []);
  }

  lemma FlushQuietly(w: World, now: Time)
    ensures Quietly(w, w.FlushChanges(now).FlushFails(now).Publish(now))
  {
    hide Notes, ChangeLog.State.Flushed, FailLog.State.Flushed, PublishedStates;
    var after := w.changes.Flushed(now);
    NoNote(w.events, if |after.lines| > |w.changes.lines| then [TargetChange(Last(after.lines))] else []);
    var u := w.FlushChanges(now);
    var flushed := u.failures.Flushed(now);
    NoNote(u.events, if |flushed.lines| > |u.failures.lines| then [Failure(Last(flushed.lines))] else []);
    FailTrace.OpRecords(w.past.failures, FailLog.Flush(now));
  }

  lemma HeartbeatQuietly(w: World, oracle: Oracle, now: Time)
    ensures Quietly(w, w.HeartbeatPhase(oracle, now))
  {
    hide World.Fail, Notes;
    if w.beat.Due(now) {
      var (after, error) := w.radio.Send(oracle, w.channel, BROADCAST, Beacon(w.radio.masterMac, !w.beat.sent), now);
      var told := w.(radio := after).Beat(Heartbeat.Tick(error.None?, now));
      assert Quietly(w, told);
      if error.Some? {
        FailQuietly(told, FailLog.HeartbeatFailed(error.value), now);
      }
    }
  }

  lemma SendQuietly(w: World, mac: Mac, oracle: Oracle, now: Time)
    ensures Quietly(w, w.SendIfDue(mac, oracle, now))
  {
    hide World.Fail, World.CommandFor, Notes;
    var g := w.tracker.Group(mac);
    if g.Some? && g.value.Due(now) {
      var device := g.value.device;
      var command := w.CommandFor(mac, device, g.value.target.value);
      var (after, error) := w.radio.Send(oracle, device.channel, device.receiver, Duties(command), now);
      assert Quietly(w, w.(radio := after));
      if error.Some? {
        FailQuietly(w.(radio := after), FailLog.SendFailed(mac, error.value), now);
      }
    }
  }

  lemma DriveOneQuietly(w: World, mac: Mac, oracle: Oracle, now: Time)
    ensures Quietly(w, w.DriveOne(mac, oracle, now))
  {
    hide World.SendIfDue, World.DriveOne, World.Change, Notes, Speed.Prepared, Speed.Uniform;
    DriveOneIs(w, mac, oracle, now);
    if Aimed(w, mac).Some? {
      AimedQuietly(w, mac, now);
      SendQuietly(AimedWorld(w, mac, now), mac, oracle, now);
    }
  }

  lemma AimedQuietly(w: World, mac: Mac, now: Time)
    requires Aimed(w, mac).Some?
    ensures Quietly(w, AimedWorld(w, mac, now))
  {
    hide World.Change, Notes, Speed.Prepared, Speed.Uniform;
    var g, percent := w.tracker.Group(mac).value, w.PercentFor(mac).value;
    var wish := Speed.Uniform(g.device.fanCount, percent);
    var aimed := w.Track(Solo.Target(mac, wish));
    assert Quietly(w, aimed);
    ChangeQuietly(aimed, mac,
      ChangeLog.Change(percent, Shown(g.device.fanCount, Speed.Prepared(g.device, wish))), now);
  }

  lemma {:induction false} DrivesQuietly(w: World, macs: seq<Mac>, oracle: Oracle, now: Time)
    ensures Quietly(w, w.DriveAll(macs, oracle, now))
  {
    if macs != [] {
      hide World.DriveOne, Notes;
      DrivesQuietly(w, Front(macs), oracle, now);
      DriveOneQuietly(w.DriveAll(Front(macs), oracle, now), Last(macs), oracle, now);
    }
  }

  lemma {:induction false} LastSendsQuietly(w: World, macs: seq<Mac>, oracle: Oracle, now: Time)
    ensures Quietly(w, w.LastSends(macs, oracle, now))
  {
    if macs != [] {
      hide World.CommandFor, Notes;
      LastSendsQuietly(w, Front(macs), oracle, now);
    }
  }

  // The phases that write notes.

  /** The line about skipped records: at most one a minute. */
  function SkipLine(w: World, result: Result<Reply, string>, now: Time): seq<Event> {
    if result.Err? || result.value.skipped == 0 then []
    else if w.lastSkipLog.Some? && Since(now, w.lastSkipLog.value) < 60 * SECOND then []
    else [Skipped(result.value.skipped, w.snapshot.skippedRecords + result.value.skipped)]
  }

  lemma SkipNotes(w: World, reply: Reply, now: Time)
    ensures var v := w.SkipNote(reply.skipped, now);
      && Notes(v.events) == Notes(w.events) + SkipLine(w, Ok(reply), now)
      && v.lastOnline == w.lastOnline
      && v.lastSkipLog == (if SkipLine(w, Ok(reply), now) != [] then Some(now) else w.lastSkipLog)
      && v.snapshot.lastError == w.snapshot.lastError && v.past == w.past && v.tracker == w.tracker
  {
    hide Notes;
    var line := SkipLine(w, Ok(reply), now);
    NotesAdd(w.events, line);
    AllNotes(line);
    NothingMore(Notes(w.events));
  }

  /** The state a poll phase leaves before its reply is taken in. */
  lemma PollNotes(w: World, oracle: Oracle, now: Time)
    ensures var v, result := w.PollPhase(oracle, now), oracle(|w.radio.calls|).poll;
      && Notes(v.events) == Notes(w.events) + SkipLine(w, result, now)
           + (if result.Ok? then Arrivals(v.tracker.Listed(), Macs(w.tracker.Listed()), w.tracker.masterMac) else [])
      && v.lastOnline == w.lastOnline
      && v.lastSkipLog == (if SkipLine(w, result, now) != [] then Some(now) else w.lastSkipLog)
      && (ShowsLastFailure(w) ==> ShowsLastFailure(v))
  {
    hide World.Fail, World.SkipNote, Notes, SkipLine;
    var v := w.PollPhase(oracle, now);
    var (after, result) := w.radio.Poll(oracle, now);
    var told := w.(radio := after).Recovering(Recovery.Poll(result.Ok?));
    match result {
      case Err(error) =>
        var counted := told.(snapshot := w.snapshot.(pollFailures := w.snapshot.pollFailures + 1));
        FailQuietly(counted, FailLog.PollFailed(error), now);
        assert Quietly(w, counted);
        NoSkipLine(w, result, now);
        NothingMore(Notes(w.events));
      case Ok(reply) =>
        var polled := told.(snapshot := w.snapshot.(polls := w.snapshot.polls + 1));
        SkipNotes(polled, reply, now);
        SameSkipLine(w, polled, result, now);
        var lines := Arrivals(v.tracker.Listed(), Macs(w.tracker.Listed()), w.tracker.masterMac);
        ArrivalsAreNotes(v.tracker.Listed(), Macs(w.tracker.Listed()), w.tracker.masterMac);
        NotesAdd(polled.SkipNote(reply.skipped, now).events, lines);
    }
  }

  lemma NoSkipLine(w: World, result: Result<Reply, string>, now: Time)
    requires result.Err?
    ensures SkipLine(w, result, now) == []
  {
  }

  lemma SameSkipLine(w: World, v: World, result: Result<Reply, string>, now: Time)
    requires v.lastSkipLog == w.lastSkipLog && v.snapshot.skippedRecords == w.snapshot.skippedRecords
    ensures SkipLine(w, result, now) == SkipLine(v, result, now)
  {
  }

  lemma {:induction false} ArrivalsAreNotes(listed: seq<Group>, before: seq<Mac>, master: Mac)
    ensures Notes(Arrivals(listed, before, master)) == Arrivals(listed, before, master)
  {
    forall i | 0 <= i < |Arrivals(listed, before, master)| ensures IsNote(Arrivals(listed, before, master)[i]) {
      Notices.ArrivalsAre(listed, before, master, Arrivals(listed, before, master)[i]);
    }
    AllNotes(Arrivals(listed, before, master));
  }

  /** The lines a sweep writes of a tracker. */
  function GoneLines(before: seq<Mac>, t: Tracker, wanted: map<Mac, Byte>, now: Time): seq<Event> {
    var swept := t.Swept(now);
    Silences(before, Macs(swept.Listed()), Macs(t.Forgotten(now)), swept)
    + Farewells(t.Forgotten(now), t.masterMac, wanted)
  }

  lemma SweepNotes(w: World, now: Time)
    ensures var v := w.SweepPhase(now);
      && Notes(v.events) == Notes(w.events) + GoneLines(w.lastOnline, w.tracker, w.wanted, now)
      && v.lastOnline == Macs(v.tracker.Listed()) && v.lastSkipLog == w.lastSkipLog
      && (ShowsLastFailure(w) ==> ShowsLastFailure(v))
  {
    hide Notes, Tracker.Swept, Tracker.Forgotten, Silences, Farewells;
    var swept, gone := w.tracker.Swept(now), w.tracker.Forgotten(now);
    var silences := Silences(w.lastOnline, Macs(swept.Listed()), Macs(gone), swept);
    var farewells := Farewells(gone, w.tracker.masterMac, w.wanted);
    MasterIsKept(w.tracker, [], now);
    SweepLinesAreNotes(w.lastOnline, Macs(swept.Listed()), gone, swept, w.wanted);
    NotesAdd(w.events, silences);
    NotesAdd(w.events + silences, farewells);
    assert w.SweepPhase(now).events == w.events + silences + farewells;
    Regroup(Notes(w.events), silences, farewells, []);
    NothingMore(silences + farewells);
    NothingMore(Notes(w.events) + silences + farewells);
  }

  lemma SweepLinesAreNotes(before: seq<Mac>, after: seq<Mac>, gone: seq<Group>, t: Tracker, wanted: map<Mac, Byte>)
    ensures var silences, farewells := Silences(before, after, Macs(gone), t), Farewells(gone, t.masterMac, wanted);
      Notes(silences) == silences && Notes(farewells) == farewells
  {
    hide Notes;
    var silences, farewells := Silences(before, after, Macs(gone), t), Farewells(gone, t.masterMac, wanted);
    forall i | 0 <= i < |silences| ensures IsNote(silences[i]) {
      Notices.SilencesAre(before, after, Macs(gone), t, silences[i]);
    }
    Notices.FarewellsAre(gone, t.masterMac, wanted);
    AllNotes(silences);
    AllNotes(farewells);
  }

  /** The line of a change of the alarm. */
  function AlarmLine(before: bool, after: bool): seq<Event> {
    if before == after then [] else [if after then FailsafeRaised else FailsafeCleared]
  }

  lemma JudgeNotes(w: World)
    ensures var v := w.Judge();
      && Notes(v.events) == Notes(w.events) + AlarmLine(w.alarm, v.alarm)
      && v.lastOnline == w.lastOnline && v.lastSkipLog == w.lastSkipLog
      && (ShowsLastFailure(w) ==> ShowsLastFailure(v))
  {
    hide Notes;
    NotesAdd(w.events, AlarmLine(w.alarm, w.Judge().alarm));
    AllNotes(AlarmLine(w.alarm, w.Judge().alarm));
    NothingMore(Notes(w.events));
  }

  lemma NothingMore(notes: seq<Event>)
    ensures notes + [] == notes && notes + [] + [] == notes
  {
  }

  /** The lines of a reconnect that found a dongle. */
  function BackLines(w: World, oracle: Oracle, now: Time): seq<Event> {
    var result := oracle(|w.radio.calls|).reconnect;
    if !w.recovery.Attempts(now) || result.Err? then [] else [Reconnection(result.value.0, result.value.1)]
  }

  lemma RecoverNotes(w: World, oracle: Oracle, now: Time)
    ensures var v := w.RecoverPhase(oracle, now);
      && Notes(v.events) == Notes(w.events) + BackLines(w, oracle, now) + AlarmLine(w.alarm, v.alarm)
      && v.lastOnline == w.lastOnline && v.lastSkipLog == w.lastSkipLog
      && (ShowsLastFailure(w) ==> ShowsLastFailure(v))
  {
    hide World.Fail, World.Judge, Notes;
    var v := w.RecoverPhase(oracle, now);
    NothingMore(Notes(w.events));
    if w.recovery.Attempts(now) {
      var everyChannel := w.recovery.EveryChannel();
      var (after, result) := w.radio.Reconnect(oracle, everyChannel, now);
      match result {
        case Ok((master, on)) =>
          var said := w.(radio := after, channel := on, snapshot := w.snapshot.(masterMac := master, channel := on,
              reconnects := w.snapshot.reconnects + 1))
            .Recovering(Recovery.Recover(true, now)).Beat(Heartbeat.Renew).Say([Reconnection(master, on)]);
          NotesAdd(w.events, [Reconnection(master, on)]);
          AllNotes([Reconnection(master, on)]);
          JudgeNotes(said);
        case Err(error) =>
          var message := FailLog.ReconnectFailed(everyChannel, error, w.recovery.wait / SECOND);
          FailQuietly(w.(radio := after), message, now);
          FailKeepsAlarm(w.(radio := after), message, now);
      }
    }
  }

  lemma FailKeepsAlarm(w: World, message: FailLog.Message, now: Time)
    ensures w.Fail(message, now).alarm == w.alarm
  {
  }

  // A whole tick.

  /** The tracker as the poll of a tick leaves it. */
  function HeardBy(w: World, oracle: Oracle, now: Time): Tracker {
    var result := Answered(w, oracle, now);
    if result.Ok? then w.tracker.Observed(result.value.devices, now) else w.tracker
  }

  function ArrivalLines(w: World, oracle: Oracle, now: Time): seq<Event> {
    if Answered(w, oracle, now).Err? then []
    else Arrivals(HeardBy(w, oracle, now).Listed(), Macs(w.tracker.Listed()), w.tracker.masterMac)
  }

  /** The notes of a tick, in order. */
  function TickLines(w: World, oracle: Oracle, now: Time): seq<Event> {
    var ready, after := w.AtDrive(oracle, now), w.Tick(oracle, now);
    SkipLine(w, Answered(w, oracle, now), now) + ArrivalLines(w, oracle, now)
    + GoneLines(w.lastOnline, HeardBy(w, oracle, now), w.wanted, now)
    + AlarmLine(w.alarm, ready.alarm)
    + BackLines(Driven(w, oracle, now), oracle, now)
    + AlarmLine(ready.alarm, after.alarm)
  }

  lemma Joins(base: seq<Event>, a: seq<Event>, b: seq<Event>, c: seq<Event>, d: seq<Event>)
    ensures base + a + b + c + d == base + (a + b + c + d)
  {
  }

  /** The notes of the phases before the drive. */
  lemma ReadyNotes(w: World, oracle: Oracle, now: Time)
    requires Consistent(w, now)
    ensures var v := w.AtDrive(oracle, now);
      && Notes(v.events) == Notes(w.events)
           + (SkipLine(w, Answered(w, oracle, now), now) + ArrivalLines(w, oracle, now)
              + GoneLines(w.lastOnline, HeardBy(w, oracle, now), w.wanted, now) + AlarmLine(w.alarm, v.alarm))
      && v.lastOnline == Macs(v.tracker.Listed())
      && v.lastSkipLog == (if SkipLine(w, Answered(w, oracle, now), now) != [] then Some(now) else w.lastSkipLog)
      && (ShowsLastFailure(w) ==> ShowsLastFailure(v))
  {
    hide World.HeartbeatPhase, World.PollPhase, World.SweepPhase, World.Judge, Notes, SkipLine, Arrivals, AlarmLine;
    hide Tracker.Observed, Tracker.Swept, Tracker.Forgotten, Silences, Farewells, NewCalls, PartsFit, LogsFit;
    var begun := w.(snapshot := w.snapshot.(ticks := w.snapshot.ticks + 1));
    var beaten := begun.HeartbeatPhase(oracle, now);
    var heard := beaten.PollPhase(oracle, now);
    var swept := heard.SweepPhase(now);
    assert Quietly(w, begun);
    HeartbeatQuietly(begun, oracle, now);
    HeartbeatFrame(begun, oracle, now);
    HeartbeatLeaves(begun, oracle, now);
    PollNotes(beaten, oracle, now);
    PollFrame(beaten, oracle, now);
    PollLeaves(beaten, oracle, now);
    CallsSoFar(begun, oracle, now);
    SameSkipLine(w, beaten, Answered(w, oracle, now), now);
    SweepNotes(heard, now);
    SweepLeaves(heard, now);
    JudgeNotes(swept);
    JudgeLeaves(swept);
    Joins(Notes(w.events), SkipLine(w, Answered(w, oracle, now), now), ArrivalLines(w, oracle, now),
          GoneLines(w.lastOnline, HeardBy(w, oracle, now), w.wanted, now),
          AlarmLine(w.alarm, w.AtDrive(oracle, now).alarm));
  }

  lemma CallsSoFar(begun: World, oracle: Oracle, now: Time)
    ensures |begun.HeartbeatPhase(oracle, now).radio.calls| == PollCall(begun, now)
  {
    hide World.HeartbeatPhase;
    HeartbeatFrame(begun, oracle, now);
  }

  lemma HeartbeatLeaves(w: World, oracle: Oracle, now: Time)
    ensures var v := w.HeartbeatPhase(oracle, now);
      v.alarm == w.alarm && v.snapshot.skippedRecords == w.snapshot.skippedRecords
  {
  }

  lemma PollLeaves(w: World, oracle: Oracle, now: Time)
    ensures w.PollPhase(oracle, now).alarm == w.alarm
  {
  }

  lemma SweepLeaves(w: World, now: Time)
    ensures var v := w.SweepPhase(now);
      v.alarm == w.alarm && v.wanted == w.wanted && v.tracker == w.tracker.Swept(now)
  {
  }

  lemma JudgeLeaves(w: World)
    ensures w.Judge().tracker == w.tracker
  {
  }

  /** A tick writes exactly these notes, remembers who is listed and when it last told of skipped records. */
  lemma TickNotes(w: World, oracle: Oracle, now: Time)
    requires Consistent(w, now)
    ensures var v := w.Tick(oracle, now);
      && Notes(v.events) == Notes(w.events) + TickLines(w, oracle, now)
      && v.lastOnline == v.tracker.order
      && v.lastSkipLog == (if SkipLine(w, Answered(w, oracle, now), now) != [] then Some(now) else w.lastSkipLog)
      && (ShowsLastFailure(w) ==> ShowsLastFailure(v))
  {
    hide World.Tick, World.AtDrive, World.DrivePhase, World.RecoverPhase, World.FlushChanges, World.FlushFails;
    hide World.Publish, Notes, SkipLine, ArrivalLines, GoneLines, AlarmLine, BackLines, PartsFit, LogsFit, HeardBy;
    var ready, driven, after := w.AtDrive(oracle, now), Driven(w, oracle, now), w.Tick(oracle, now);
    var recovered := driven.RecoverPhase(oracle, now);
    ReadyNotes(w, oracle, now);
    DrivenQuietly(w, oracle, now);
    RecoverNotes(driven, oracle, now);
    FlushQuietly(recovered, now);
    FlushLeaves(recovered, now);
    TickIs(w, oracle, now);
    TickSettles(w, oracle, now);
    ListedMacs(ready.tracker);
    EndsWith(Notes(w.events), SkipLine(w, Answered(w, oracle, now), now) + ArrivalLines(w, oracle, now)
        + GoneLines(w.lastOnline, HeardBy(w, oracle, now), w.wanted, now) + AlarmLine(w.alarm, ready.alarm),
      BackLines(driven, oracle, now), AlarmLine(ready.alarm, after.alarm));
  }

  lemma EndsWith(base: seq<Event>, a: seq<Event>, b: seq<Event>, c: seq<Event>)
    ensures base + a + b + c == base + (a + b + c)
  {
  }

  lemma DrivenQuietly(w: World, oracle: Oracle, now: Time)
    requires Consistent(w, now)
    ensures Quietly(w.AtDrive(oracle, now), Driven(w, oracle, now))
    ensures Driven(w, oracle, now).alarm == w.AtDrive(oracle, now).alarm
  {
    hide World.AtDrive, Notes, PartsFit, LogsFit;
    DrivesQuietly(w.AtDrive(oracle, now), FanMacs(w.AtDrive(oracle, now)), oracle, now);
    DrivenFollows(w, oracle, now);
  }

  lemma FlushLeaves(w: World, now: Time)
    ensures w.FlushChanges(now).FlushFails(now).Publish(now).alarm == w.alarm
  {
  }
}
