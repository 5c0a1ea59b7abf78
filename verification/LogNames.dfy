/** The newest change the log took note of names the target a group has. */
module LogNames {
  import opened Types
  import opened Groups
  import opened Radio
  import opened Engine
  import opened EngineHistory
  import opened Drive
  import opened Roster
  import opened EngineTick
  import opened TickTheorems
  import opened Shutdown
  import opened Standing
  import ChangeLog
  import Speed

  /** A change names a target: it shows the leading duties, and the others are off. */
  ghost predicate Names(change: ChangeLog.Change, target: Quad) {
    && |change.shown| <= FANS_PER_GROUP
    && (forall slot :: 0 <= slot < |change.shown| ==> target[slot] == change.shown[slot])
    && (forall slot :: |change.shown| <= slot < FANS_PER_GROUP ==> target[slot] == 0)
  }

  /** The changes recorded of a group's target. */
  function ChangesOf(w: World, mac: Mac): seq<ChangeLog.Change> {
    ChangeLog.Changes(w.past.changes, mac)
  }

  ghost predicate NamesTargets(w: World) {
    forall mac :: TargetOf(w.tracker, mac).Some? ==>
      ChangesOf(w, mac) != [] && Names(Last(ChangesOf(w, mac)), TargetOf(w.tracker, mac).value)
  }

  /** Driving a group would change its target. */
  predicate Retargets(w: World, mac: Mac) {
    Aimed(w, mac).Some? && TargetOf(w.tracker, mac) != Aimed(w, mac).value.target
  }

  function NewChange(w: World, mac: Mac): ChangeLog.Change
    requires Aimed(w, mac).Some?
  {
    ChangeLog.Change(w.PercentFor(mac).value,
                     Shown(Aimed(w, mac).value.device.fanCount, Aimed(w, mac).value.target.value))
  }

  function ChangeOne(w: World, mac: Mac): seq<ChangeLog.Change> {
    if Retargets(w, mac) then [NewChange(w, mac)] else []
  }

  lemma ChangesAdd(ops: seq<ChangeLog.Op>, op: ChangeLog.Op, mac: Mac)
    ensures ChangeLog.Changes(ops + [op], mac)
      == ChangeLog.Changes(ops, mac) + if op.Record? && op.mac == mac then [op.change] else []
  {
    assert Front(ops + [op]) == ops;
  }

  lemma SendRecordsNothing(w: World, mac: Mac, oracle: Oracle, now: Time)
    ensures w.SendIfDue(mac, oracle, now).past.changes == w.past.changes
  {
  }

  lemma DriveOneRecords(w: World, mac: Mac, oracle: Oracle, now: Time, m: Mac)
    ensures ChangesOf(w.DriveOne(mac, oracle, now), m)
      == ChangesOf(w, m) + if m == mac then ChangeOne(w, mac) else []
  {
    hide World.SendIfDue, World.DriveOne, Speed.Prepared, Speed.Uniform;
    DriveOneIs(w, mac, oracle, now);
    if Aimed(w, mac).Some? {
      SendRecordsNothing(AimedWorld(w, mac, now), mac, oracle, now);
      ChangesAdd(w.past.changes, ChangeLog.Record(mac, NewChange(w, mac), now), m);
    }
  }

  lemma {:induction false} DriveAllRecords(w: World, macs: seq<Mac>, oracle: Oracle, now: Time, m: Mac)
    requires Unique(w.tracker.groups) && Distinct(macs)
    ensures ChangesOf(w.DriveAll(macs, oracle, now), m)
      == ChangesOf(w, m) + if m in macs then ChangeOne(w, m) else []
  {
    if macs != [] {
      hide World.DriveOne, Follows, ChangesOf, ChangeOne;
      assert macs == Front(macs) + [Last(macs)] && Last(macs) !in Front(macs);
      DriveAllRecords(w, Front(macs), oracle, now, m);
      DriveAllPlan(w, Front(macs), oracle, now);
      OneMoreRecords(w, Front(macs), Last(macs), w.DriveAll(Front(macs), oracle, now), oracle, now, m);
    }
  }

  lemma OneMoreRecords(w: World, macs: seq<Mac>, mac: Mac, u: World, oracle: Oracle, now: Time, m: Mac)
    requires Follows(w, macs, now, u) && mac !in macs
    requires ChangesOf(u, m) == ChangesOf(w, m) + if m in macs then ChangeOne(w, m) else []
    ensures ChangesOf(u.DriveOne(mac, oracle, now), m)
      == ChangesOf(w, m) + if m in macs + [mac] then ChangeOne(w, m) else []
  {
    hide World.DriveOne, Follows, ChangesOf, ChangeOne;
    DriveOneRecords(u, mac, oracle, now, m);
    SameChange(w, macs, mac, u, now);
  }

  lemma SameChange(w: World, macs: seq<Mac>, mac: Mac, u: World, now: Time)
    requires Follows(w, macs, now, u) && mac !in macs
    ensures ChangeOne(u, mac) == ChangeOne(w, mac)
  {
    hide Settled, SpeedCalls, Plan;
    SameAim(w, u, mac, now);
  }

  lemma BeforeDriveRecords(w: World, oracle: Oracle, now: Time)
    ensures w.AtDrive(oracle, now).past.changes == w.past.changes
  {
    hide World.HeartbeatPhase, World.PollPhase;
    var begun := w.(snapshot := w.snapshot.(ticks := w.snapshot.ticks + 1));
    HeartbeatRecords(begun, oracle, now);
    PollRecords(begun.HeartbeatPhase(oracle, now), oracle, now);
  }

  lemma HeartbeatRecords(w: World, oracle: Oracle, now: Time)
    ensures w.HeartbeatPhase(oracle, now).past.changes == w.past.changes
  {
  }

  lemma PollRecords(w: World, oracle: Oracle, now: Time)
    ensures w.PollPhase(oracle, now).past.changes == w.past.changes
  {
  }

  lemma RecoverRecords(w: World, oracle: Oracle, now: Time)
    ensures w.RecoverPhase(oracle, now).past.changes == w.past.changes
  {
  }

  lemma AfterDriveRecords(w: World, oracle: Oracle, now: Time, m: Mac)
    ensures ChangesOf(w.RecoverPhase(oracle, now).FlushChanges(now).FlushFails(now).Publish(now), m) == ChangesOf(w, m)
  {
    hide World.RecoverPhase;
    RecoverRecords(w, oracle, now);
    ChangesAdd(w.past.changes, ChangeLog.Flush(now), m);
  }

  /** What one tick records of one group's target: its change, if the drive made one. */
  lemma TickRecords(w: World, oracle: Oracle, now: Time, m: Mac)
    requires Consistent(w, now)
    ensures var ready := w.AtDrive(oracle, now);
      ChangesOf(w.Tick(oracle, now), m) == ChangesOf(w, m) + if m in FanMacs(ready) then ChangeOne(ready, m) else []
  {
    hide World.Tick, World.AtDrive, World.RecoverPhase, World.FlushChanges, World.FlushFails, World.Publish;
    hide PartsFit, LogsFit;
    var ready := w.AtDrive(oracle, now);
    TickIs(w, oracle, now);
    BeforeDriveRecords(w, oracle, now);
    AtDriveFits(w, oracle, now);
    ConsistentIsSane(ready, now);
    FansAre(ready.tracker);
    DriveAllRecords(ready, FanMacs(ready), oracle, now, m);
    AfterDriveRecords(Driven(w, oracle, now), oracle, now, m);
  }

  /** The drive of this tick changes the group's target. */
  ghost predicate TickRetargets(w: World, oracle: Oracle, now: Time, mac: Mac) {
    TargetOf(w.AtDrive(oracle, now).tracker, mac) != TargetOf(w.Tick(oracle, now).tracker, mac)
  }

  lemma RetargetsIff(w: World, oracle: Oracle, now: Time, mac: Mac)
    requires Consistent(w, now)
    ensures var ready := w.AtDrive(oracle, now);
      TickRetargets(w, oracle, now, mac) <==> mac in FanMacs(ready) && Retargets(ready, mac)
  {
    hide World.Tick, World.AtDrive, PartsFit, LogsFit, Speed.Prepared, Speed.Uniform, World.PercentFor;
    TickSettles(w, oracle, now);
    var ready := w.AtDrive(oracle, now);
    if mac in FanMacs(ready) {
      FanMac(ready.tracker, mac);
      assert Settled(ready, mac, now, w.Tick(oracle, now).tracker.Group(mac));
    }
  }

  /** In how many ticks of a run the drive changed the group's target. */
  ghost function Retargeted(master: Mac, channel: Byte, steps: seq<Step>, oracle: Oracle, mac: Mac): nat {
    if steps == [] then 0
    else
      Retargeted(master, channel, Front(steps), oracle, mac)
      + if Last(steps).Ticked?
           && TickRetargets(Engine.Run(master, channel, Front(steps), oracle), oracle, Last(steps).at, mac)
        then 1 else 0
  }

  /** On every run the log was told of exactly the changes the drives made. */
  lemma {:induction false} EveryChangeIsRecorded(master: Mac, channel: Byte, steps: seq<Step>, oracle: Oracle, mac: Mac)
    requires Engine.Timed(steps)
    ensures |ChangesOf(Engine.Run(master, channel, steps, oracle), mac)|
      == Retargeted(master, channel, steps, oracle, mac)
  {
    if steps != [] {
      hide World.Tick, World.AtDrive, World.LastSends, PartsFit, LogsFit, ChangesOf, TickRetargets;
      EveryChangeIsRecorded(master, channel, Front(steps), oracle, mac);
      var w, now := Engine.Run(master, channel, Front(steps), oracle), Engine.Latest(steps);
      RunFits(master, channel, Front(steps), oracle);
      LaterFits(w, Engine.Latest(Front(steps)), now);
      StepRecords(w, Last(steps), oracle, now, mac);
    } else {
      assert Engine.Run(master, channel, [], oracle).past.changes == [];
    }
  }

  lemma StepRecords(w: World, step: Step, oracle: Oracle, now: Time, mac: Mac)
    requires Consistent(w, now) && (!step.Asked? ==> step.at == now)
    ensures |ChangesOf(Engine.Apply(w, step, oracle), mac)| == |ChangesOf(w, mac)|
      + if step.Ticked? && TickRetargets(w, oracle, now, mac) then 1 else 0
  {
    hide World.Tick, World.AtDrive, PartsFit, LogsFit, TickRetargets;
    match step {
      case Asked(request) =>
      case Ticked(at) =>
        TickRecords(w, oracle, at, mac);
        RetargetsIff(w, oracle, at, mac);
      case Stopped(at) => LastSendsRecordNothing(w, FanMacs(w), oracle, at);
    }
  }

  lemma NewChangeNames(w: World, mac: Mac)
    requires Aimed(w, mac).Some? && w.tracker.Group(mac).value.HasFans() && w.PercentFor(mac).value >= 30
    ensures Names(NewChange(w, mac), Aimed(w, mac).value.target.value)
  {
    Speed.PreparedUniform(w.tracker.Group(mac).value.device, w.PercentFor(mac).value);
  }

  lemma TickNamesTarget(w: World, oracle: Oracle, now: Time, mac: Mac)
    requires Consistent(w, now) && NamesTargets(w) && TargetOf(w.Tick(oracle, now).tracker, mac).Some?
    ensures var after := w.Tick(oracle, now);
      ChangesOf(after, mac) != [] && Names(Last(ChangesOf(after, mac)), TargetOf(after.tracker, mac).value)
  {
    hide World.Tick, World.AtDrive, PartsFit, LogsFit, Aimed, World.PercentFor, Names, NewChange, ChangesOf;
    var ready := w.AtDrive(oracle, now);
    TickRecords(w, oracle, now, mac);
    RetargetsIff(w, oracle, now, mac);
    TickSettles(w, oracle, now);
    if mac in FanMacs(ready) && Retargets(ready, mac) {
      RetargetedNames(w, oracle, now, mac);
    } else {
      assert TargetOf(w.Tick(oracle, now).tracker, mac) == TargetOf(w.tracker, mac);
    }
  }

  /** A target changed in a tick is named by the change that the tick records. */
  lemma RetargetedNames(w: World, oracle: Oracle, now: Time, mac: Mac)
    requires Consistent(w, now) && mac in FanMacs(w.AtDrive(oracle, now)) && Retargets(w.AtDrive(oracle, now), mac)
    ensures TargetOf(w.Tick(oracle, now).tracker, mac) == Aimed(w.AtDrive(oracle, now), mac).value.target
    ensures TargetOf(w.Tick(oracle, now).tracker, mac).Some?
    ensures Names(NewChange(w.AtDrive(oracle, now), mac), TargetOf(w.Tick(oracle, now).tracker, mac).value)
  {
    hide World.Tick, World.AtDrive, PartsFit, LogsFit, Speed.Prepared, Speed.Uniform, Names, NewChange;
    var ready := w.AtDrive(oracle, now);
    TickSettles(w, oracle, now);
    WishesHold(w, now);
    FanMac(ready.tracker, mac);
    FansAre(ready.tracker);
    assert Settled(ready, mac, now, w.Tick(oracle, now).tracker.Group(mac));
    NewChangeNames(ready, mac);
  }

  lemma {:induction false} RunNamesTargets(master: Mac, channel: Byte, steps: seq<Step>, oracle: Oracle)
    requires Engine.Timed(steps)
    ensures NamesTargets(Engine.Run(master, channel, steps, oracle))
  {
    if steps != [] {
      hide World.Tick, World.Shutdown, World.Freed, PartsFit, LogsFit, Names;
      RunNamesTargets(master, channel, Front(steps), oracle);
      var w, now := Engine.Run(master, channel, Front(steps), oracle), Engine.Latest(steps);
      RunFits(master, channel, Front(steps), oracle);
      LaterFits(w, Engine.Latest(Front(steps)), now);
      match Last(steps) {
        case Asked(Want(mac, percent)) =>
        case Asked(Release(mac)) => FreedNames(w, mac, now);
        case Ticked(at) =>
          forall mac | TargetOf(w.Tick(oracle, at).tracker, mac).Some?
            ensures ChangesOf(w.Tick(oracle, at), mac) != []
            ensures Names(Last(ChangesOf(w.Tick(oracle, at), mac)), TargetOf(w.Tick(oracle, at).tracker, mac).value)
          {
            TickNamesTarget(w, oracle, at, mac);
          }
        case Stopped(at) => ShutdownNames(w, oracle, at);
      }
    }
  }

  lemma FreedNames(w: World, mac: Mac, now: Time)
    requires Consistent(w, now) && NamesTargets(w)
    ensures NamesTargets(w.Freed(mac))
  {
    hide PartsFit, LogsFit, Names;
    var t := w.Freed(mac).tracker;
    forall m ensures TargetOf(t, m).Some? ==> TargetOf(t, m) == TargetOf(w.tracker, m) {
      FreedTracker(w, mac, m, now);
    }
    assert w.Freed(mac).past.changes == w.past.changes;
  }

  lemma {:induction false} LastSendsRecordNothing(w: World, macs: seq<Mac>, oracle: Oracle, now: Time)
    ensures w.LastSends(macs, oracle, now).past.changes == w.past.changes
  {
    if macs != [] {
      LastSendsRecordNothing(w, Front(macs), oracle, now);
    }
  }

  lemma ShutdownNames(w: World, oracle: Oracle, now: Time)
    requires Consistent(w, now) && NamesTargets(w)
    ensures NamesTargets(w.Shutdown(oracle, now))
  {
    hide PartsFit, LogsFit, Names;
    ShutdownIs(w, oracle, now);
    LastSendsRecordNothing(w, FanMacs(w), oracle, now);
    assert w.Shutdown(oracle, now).past.changes == w.past.changes;
    assert forall m :: TargetOf(w.tracker, m) == TargetOf(w.Shutdown(oracle, now).tracker, m);
  }

  /**
    On every run, while a group has a target, the change the log took note of last, written or
    pending, names that target.
   */
  lemma NewestNamesTarget(master: Mac, channel: Byte, steps: seq<Step>, oracle: Oracle, mac: Mac)
    requires Engine.Timed(steps)
    requires TargetOf(Engine.Run(master, channel, steps, oracle).tracker, mac).Some?
    ensures var w := Engine.Run(master, channel, steps, oracle);
      && ChangeLog.Newest(w.changes, mac).Some?
      && Names(ChangeLog.Newest(w.changes, mac).value, TargetOf(w.tracker, mac).value)
  {
    hide Names;
    var w := Engine.Run(master, channel, steps, oracle);
    RunNamesTargets(master, channel, steps, oracle);
    RunFits(master, channel, steps, oracle);
    ChangeLog.RunSound(w.past.changes, mac);
  }
}
