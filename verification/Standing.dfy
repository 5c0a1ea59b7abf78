/** What stands over whole runs: the floor, the silence of released groups, and the log's last word on a target. */
module Standing {
  import opened Types
  import opened Groups
  import opened Radio
  import opened Engine
  import opened EngineHistory
  import opened Drive
  import opened Roster
  import opened EngineTick
  import opened TickTheorems
  import opened Shutdown
  import Solo
  import Speed

  /** Where a tick leaves one group's target, online or not. */
  lemma TickTarget(w: World, oracle: Oracle, now: Time, mac: Mac)
    requires Consistent(w, now) && w.Tick(oracle, now).tracker.Group(mac).Some?
    ensures var ready, g := w.AtDrive(oracle, now), w.Tick(oracle, now).tracker.Group(mac).value;
      if mac in FanMacs(ready) && ready.PercentFor(mac).Some? then
        && g.HasFans()
        && g.target == Some(Speed.Prepared(g.device, Speed.Uniform(g.device.fanCount, ready.PercentFor(mac).value)))
      else g.target == TargetOf(w.tracker, mac)
  {
    hide World.Tick, World.AtDrive, PartsFit, LogsFit, Speed.Prepared, Speed.Uniform;
    var ready, after := w.AtDrive(oracle, now), w.Tick(oracle, now);
    TickSettles(w, oracle, now);
    assert ready.tracker.Group(mac).Some? <==> after.tracker.Group(mac).Some?;
    if mac in FanMacs(ready) {
      FanMac(ready.tracker, mac);
      FansAre(ready.tracker);
      assert Settled(ready, mac, now, after.tracker.Group(mac));
    }
  }

  // The floor.

  ghost predicate SafeTargets(t: Tracker) {
    forall mac :: t.Group(mac).Some? && t.Group(mac).value.target.Some? ==>
      forall slot :: 0 <= slot < FANS_PER_GROUP ==> Speed.SafeDuty(t.Group(mac).value.target.value[slot])
  }

  lemma TickKeepsTargetsSafe(w: World, oracle: Oracle, now: Time)
    requires Consistent(w, now) && SafeTargets(w.tracker)
    ensures SafeTargets(w.Tick(oracle, now).tracker)
  {
    hide World.Tick, World.AtDrive, PartsFit, LogsFit, Speed.Prepared, Speed.Uniform;
    var ready, after := w.AtDrive(oracle, now), w.Tick(oracle, now);
    WishesHold(w, now);
    forall mac | after.tracker.Group(mac).Some? && after.tracker.Group(mac).value.target.Some?
      ensures forall slot :: 0 <= slot < FANS_PER_GROUP ==>
        Speed.SafeDuty(after.tracker.Group(mac).value.target.value[slot])
    {
      TickTarget(w, oracle, now, mac);
      TickSettles(w, oracle, now);
      if mac in FanMacs(ready) && ready.PercentFor(mac).Some? {
        Speed.PreparedUniform(after.tracker.Group(mac).value.device, ready.PercentFor(mac).value);
      } else {
        assert w.tracker.Group(mac).Some?;
      }
    }
  }

  lemma ShutdownKeepsTargetsSafe(w: World, oracle: Oracle, now: Time)
    requires Consistent(w, now) && SafeTargets(w.tracker)
    ensures SafeTargets(w.Shutdown(oracle, now).tracker)
    ensures forall command :: command in Commands(NewCalls(w, w.Shutdown(oracle, now))) ==>
      forall slot :: 0 <= slot < FANS_PER_GROUP ==> Speed.SafeDuty(command.duty[slot])
  {
    hide World.Shutdown, PartsFit, LogsFit;
    var v := w.Shutdown(oracle, now);
    ShutdownIs(w, oracle, now);
    forall mac | v.tracker.Group(mac).Some? && v.tracker.Group(mac).value.target.Some?
      ensures forall slot :: 0 <= slot < FANS_PER_GROUP ==>
        Speed.SafeDuty(v.tracker.Group(mac).value.target.value[slot])
    {
      assert TargetOf(w.tracker, mac) == TargetOf(v.tracker, mac);
    }
    forall command | command in Commands(NewCalls(w, v))
      ensures forall slot :: 0 <= slot < FANS_PER_GROUP ==> Speed.SafeDuty(command.duty[slot])
    {
      OwedOnly(w, FanMacs(w), now, command);
    }
  }

  lemma FreedTracker(w: World, mac: Mac, m: Mac, now: Time)
    requires Consistent(w, now)
    ensures w.Freed(mac).tracker.Group(m)
      == Solo.ApplyOne(w.tracker.Group(m), Solo.Clear(mac), w.tracker.masterMac, m)
  {
    ConsistentIsSane(w, now);
    Solo.ApplyIsLocal(w.tracker, Solo.Clear(mac), m);
  }

  lemma FreedKeepsTargetsSafe(w: World, mac: Mac, now: Time)
    requires Consistent(w, now) && SafeTargets(w.tracker)
    ensures SafeTargets(w.Freed(mac).tracker)
  {
    hide World.Freed, PartsFit, LogsFit;
    forall m ensures w.Freed(mac).tracker.Group(m)
      == Solo.ApplyOne(w.tracker.Group(m), Solo.Clear(mac), w.tracker.masterMac, m)
    {
      FreedTracker(w, mac, m, now);
    }
  }

  /** On every run every target's duties are off or at 30 % or more. */
  lemma {:induction false} RunKeepsTargetsSafe(master: Mac, channel: Byte, steps: seq<Step>, oracle: Oracle)
    requires Engine.Timed(steps)
    ensures SafeTargets(Engine.Run(master, channel, steps, oracle).tracker)
  {
    if steps != [] {
      hide World.Tick, World.Shutdown, World.Freed, PartsFit, LogsFit, SafeTargets;
      RunKeepsTargetsSafe(master, channel, Front(steps), oracle);
      var w := Engine.Run(master, channel, Front(steps), oracle);
      RunFits(master, channel, Front(steps), oracle);
      LaterFits(w, Engine.Latest(Front(steps)), Engine.Latest(steps));
      match Last(steps) {
        case Asked(Want(mac, percent)) =>
        case Asked(Release(mac)) => FreedKeepsTargetsSafe(w, mac, Engine.Latest(steps));
        case Ticked(now) => TickKeepsTargetsSafe(w, oracle, now);
        case Stopped(now) => ShutdownKeepsTargetsSafe(w, oracle, now);
      }
    } else {
      assert Engine.Run(master, channel, [], oracle).tracker == NewTracker(master);
    }
  }

  // The silence of released groups.

  /** Nobody wants the group driven and it has no target. */
  ghost predicate LetGo(w: World, mac: Mac) {
    mac !in w.wanted && TargetOf(w.tracker, mac).None?
  }

  ghost predicate NoCommandFor(calls: seq<Call>, mac: Mac) {
    forall command :: command in Commands(calls) ==> command.mac != mac
  }

  lemma ReleaseLetsGo(w: World, mac: Mac, now: Time)
    requires Consistent(w, now)
    ensures LetGo(w.Freed(mac), mac)
  {
    FreedTracker(w, mac, mac, now);
  }

  lemma TickSparesUnwanted(w: World, oracle: Oracle, now: Time, mac: Mac)
    requires Consistent(w, now) && mac !in w.wanted && !w.AtDrive(oracle, now).alarm
    ensures mac !in w.Tick(oracle, now).wanted
    ensures NoCommandFor(NewCalls(w, w.Tick(oracle, now)), mac)
  {
    hide World.Tick, World.AtDrive, PartsFit, LogsFit, Speed.Prepared, Speed.Uniform;
    var ready := w.AtDrive(oracle, now);
    TickSettles(w, oracle, now);
    CommandsArePlanned(w, oracle, now);
    forall command | command in TickCommands(w, oracle, now) ensures command.mac != mac {
      PlanOnly(ready, FanMacs(ready), now, command);
    }
  }

  lemma TickLeavesAlone(w: World, oracle: Oracle, now: Time, mac: Mac)
    requires Consistent(w, now) && LetGo(w, mac) && !w.AtDrive(oracle, now).alarm
    ensures LetGo(w.Tick(oracle, now), mac)
    ensures NoCommandFor(NewCalls(w, w.Tick(oracle, now)), mac)
  {
    hide World.Tick, World.AtDrive, PartsFit, LogsFit, Speed.Prepared, Speed.Uniform;
    var ready, after := w.AtDrive(oracle, now), w.Tick(oracle, now);
    TickSparesUnwanted(w, oracle, now, mac);
    TickSettles(w, oracle, now);
    if after.tracker.Group(mac).Some? {
      TickTarget(w, oracle, now, mac);
    }
  }

  lemma ShutdownLeavesAlone(w: World, oracle: Oracle, now: Time, mac: Mac)
    requires Consistent(w, now) && LetGo(w, mac)
    ensures LetGo(w.Shutdown(oracle, now), mac)
    ensures NoCommandFor(NewCalls(w, w.Shutdown(oracle, now)), mac)
  {
    hide World.Shutdown, PartsFit, LogsFit;
    var v := w.Shutdown(oracle, now);
    ShutdownIs(w, oracle, now);
    assert TargetOf(w.tracker, mac) == TargetOf(v.tracker, mac);
    forall command | command in Commands(NewCalls(w, v)) ensures command.mac != mac {
      OwedOnly(w, FanMacs(w), now, command);
    }
  }

  /** A step that neither asks for the group nor drives under the alarm. */
  ghost predicate Undisturbing(w: World, step: Step, oracle: Oracle, mac: Mac) {
    match step
    case Asked(Want(m, _)) => m != mac
    case Asked(Release(_)) => true
    case Ticked(now) => !w.AtDrive(oracle, now).alarm
    case Stopped(_) => true
  }

  /** A run carried on from a state. */
  function Onward(w: World, steps: seq<Step>, oracle: Oracle): World {
    if steps == [] then w else Engine.Apply(Onward(w, Front(steps), oracle), Last(steps), oracle)
  }

  /** The latest instant of a run carried on from `start`. */
  function LatestFrom(start: Time, steps: seq<Step>): Time {
    if steps == [] then start else if Last(steps).Asked? then LatestFrom(start, Front(steps)) else Last(steps).at
  }

  predicate TimedFrom(start: Time, steps: seq<Step>) {
    steps == []
    || (TimedFrom(start, Front(steps)) && (!Last(steps).Asked? ==> LatestFrom(start, Front(steps)) <= Last(steps).at))
  }

  /** Every step of the run leaves the group undisturbed. */
  ghost predicate Undisturbed(w: World, steps: seq<Step>, oracle: Oracle, mac: Mac) {
    steps == []
    || (Undisturbed(w, Front(steps), oracle, mac)
        && Undisturbing(Onward(w, Front(steps), oracle), Last(steps), oracle, mac))
  }

  lemma StepLeavesAlone(w: World, step: Step, oracle: Oracle, mac: Mac, now: Time)
    requires Consistent(w, now) && LetGo(w, mac) && Undisturbing(w, step, oracle, mac)
    requires !step.Asked? ==> step.at == now
    ensures var v := Engine.Apply(w, step, oracle);
      Consistent(v, now) && LetGo(v, mac) && Extends(w, v) && NoCommandFor(NewCalls(w, v), mac)
  {
    hide World.Tick, World.Shutdown, World.AtDrive, PartsFit, LogsFit;
    match step {
      case Asked(Want(m, percent)) =>
        WantedFits(w, m, percent, now);
        assert NewCalls(w, w.Wanted(m, percent)) == [];
      case Asked(Release(m)) =>
        FreedFits(w, m, now);
        FreedTracker(w, m, mac, now);
        assert NewCalls(w, w.Freed(m)) == [];
      case Ticked(at) =>
        TickFits(w, oracle, at);
        CommandsArePlanned(w, oracle, at);
        TickLeavesAlone(w, oracle, at, mac);
      case Stopped(at) =>
        ShutdownFits(w, oracle, at);
        ShutdownIs(w, oracle, at);
        ShutdownLeavesAlone(w, oracle, at, mac);
    }
  }

  lemma NoCommandTwice(u: World, v: World, w: World, mac: Mac)
    requires Extends(u, v) && Extends(v, w) && NoCommandFor(NewCalls(u, v), mac) && NoCommandFor(NewCalls(v, w), mac)
    ensures Extends(u, w) && NoCommandFor(NewCalls(u, w), mac)
  {
    assert w.radio.calls == u.radio.calls + (NewCalls(u, v) + NewCalls(v, w));
    assert NewCalls(u, w) == NewCalls(u, v) + NewCalls(v, w);
    CommandsConcat(NewCalls(u, v), NewCalls(v, w));
  }

  /**
    Silence. From a state that has let a group go, nothing is ever sent to it, the stop included,
    until somebody asks for it or a tick drives under the alarm, though it leave, be forgotten and return.
   */
  lemma {:induction false} SilenceLasts(w: World, steps: seq<Step>, oracle: Oracle, mac: Mac, start: Time)
    requires Consistent(w, start) && LetGo(w, mac)
    requires TimedFrom(start, steps) && Undisturbed(w, steps, oracle, mac)
    ensures var v := Onward(w, steps, oracle);
      && Consistent(v, LatestFrom(start, steps)) && LetGo(v, mac)
      && Extends(w, v) && NoCommandFor(NewCalls(w, v), mac)
  {
    if steps == [] {
      assert NewCalls(w, w) == [];
    } else {
      hide Engine.Apply, PartsFit, LogsFit, Undisturbing, LetGo, NoCommandFor, Extends;
      SilenceLasts(w, Front(steps), oracle, mac, start);
      var u, now := Onward(w, Front(steps), oracle), LatestFrom(start, steps);
      LaterFits(u, LatestFrom(start, Front(steps)), now);
      StepLeavesAlone(u, Last(steps), oracle, mac, now);
      NoCommandTwice(w, u, Onward(w, steps, oracle), mac);
    }
  }

  lemma StepSparesUnwanted(w: World, step: Step, oracle: Oracle, mac: Mac, now: Time)
    requires Consistent(w, now) && mac !in w.wanted && Undisturbing(w, step, oracle, mac) && !step.Stopped?
    requires step.Ticked? ==> step.at == now
    ensures var v := Engine.Apply(w, step, oracle);
      Consistent(v, now) && mac !in v.wanted && Extends(w, v) && NoCommandFor(NewCalls(w, v), mac)
  {
    hide World.Tick, World.AtDrive, PartsFit, LogsFit;
    match step {
      case Asked(Want(m, percent)) =>
        WantedFits(w, m, percent, now);
        assert NewCalls(w, w.Wanted(m, percent)) == [];
      case Asked(Release(m)) =>
        FreedFits(w, m, now);
        assert NewCalls(w, w.Freed(m)) == [];
      case Ticked(at) =>
        TickFits(w, oracle, at);
        CommandsArePlanned(w, oracle, at);
        TickSparesUnwanted(w, oracle, at, mac);
    }
  }

  /**
    A group nobody asks for gets no command from any tick that does not drive under the alarm, even
    if an alarm has left it a target: only the stop may send that once more.
   */
  lemma {:induction false} UnwantedIsSilent(w: World, steps: seq<Step>, oracle: Oracle, mac: Mac, start: Time)
    requires Consistent(w, start) && mac !in w.wanted
    requires TimedFrom(start, steps) && Undisturbed(w, steps, oracle, mac)
    requires forall step :: step in steps ==> !step.Stopped?
    ensures var v := Onward(w, steps, oracle);
      && Consistent(v, LatestFrom(start, steps)) && mac !in v.wanted
      && Extends(w, v) && NoCommandFor(NewCalls(w, v), mac)
  {
    if steps == [] {
      assert NewCalls(w, w) == [];
    } else {
      hide Engine.Apply, PartsFit, LogsFit, Undisturbing, NoCommandFor, Extends;
      assert Last(steps) in steps && forall step :: step in Front(steps) ==> step in steps;
      UnwantedIsSilent(w, Front(steps), oracle, mac, start);
      var u, now := Onward(w, Front(steps), oracle), LatestFrom(start, steps);
      LaterFits(u, LatestFrom(start, Front(steps)), now);
      StepSparesUnwanted(u, Last(steps), oracle, mac, now);
      NoCommandTwice(w, u, Onward(w, steps, oracle), mac);
    }
  }

  /** The same from the moment of a release, over any run before it. */
  lemma ReleasedIsSilent(master: Mac, channel: Byte, before: seq<Step>, steps: seq<Step>, oracle: Oracle, mac: Mac)
    requires Engine.Timed(before) && TimedFrom(Engine.Latest(before), steps)
    requires Undisturbed(Engine.Run(master, channel, before, oracle).Freed(mac), steps, oracle, mac)
    ensures var w := Engine.Run(master, channel, before, oracle).Freed(mac);
      NoCommandFor(NewCalls(w, Onward(w, steps, oracle)), mac)
  {
    hide World.Freed, PartsFit, LogsFit, Undisturbed, LetGo, Onward;
    var w := Engine.Run(master, channel, before, oracle);
    RunFits(master, channel, before, oracle);
    FreedFits(w, mac, Engine.Latest(before));
    ReleaseLetsGo(w, mac, Engine.Latest(before));
    SilenceLasts(w.Freed(mac), steps, oracle, mac, Engine.Latest(before));
  }

  /**
    When a tick does send to a group nobody wants: it drives the group under the alarm, and its full
    speed was never sent, is not seen applied, or was sent a second ago or more.
   */
  lemma UnwantedIsSentIff(w: World, oracle: Oracle, now: Time, mac: Mac)
    requires Consistent(w, now) && mac !in w.wanted
    ensures var ready := w.AtDrive(oracle, now);
      (exists command :: command in TickCommands(w, oracle, now) && command.mac == mac)
      <==> ready.alarm && mac in FanMacs(ready) && Aimed(ready, mac).Some? && Aimed(ready, mac).value.Due(now)
  {
    hide World.Tick, World.AtDrive, PartsFit, LogsFit, Speed.Prepared, Speed.Uniform, TickCommands;
    TickSettles(w, oracle, now);
    SentIff(w, oracle, now, mac);
  }

  /** And one let go is sent to at the first tick that drives it under the alarm, and exactly then. */
  lemma LetGoIsSentIff(w: World, oracle: Oracle, now: Time, mac: Mac)
    requires Consistent(w, now) && LetGo(w, mac)
    ensures var ready := w.AtDrive(oracle, now);
      (exists command :: command in TickCommands(w, oracle, now) && command.mac == mac)
      <==> ready.alarm && mac in FanMacs(ready)
  {
    hide World.Tick, World.AtDrive, PartsFit, LogsFit, Speed.Prepared, Speed.Uniform, TickCommands;
    var ready := w.AtDrive(oracle, now);
    UnwantedIsSentIff(w, oracle, now, mac);
    TickSettles(w, oracle, now);
    if mac in FanMacs(ready) {
      FanMac(ready.tracker, mac);
    }
  }

  /**
    A release in any run, then steps that leave the group undisturbed, then a tick: it sends to the
    group exactly if the group is driven under the alarm.
   */
  lemma ReleasedIsSentIff(master: Mac, channel: Byte, before: seq<Step>, steps: seq<Step>, oracle: Oracle, mac: Mac,
                          now: Time)
    requires Engine.Timed(before) && TimedFrom(Engine.Latest(before), steps)
    requires Undisturbed(Engine.Run(master, channel, before, oracle).Freed(mac), steps, oracle, mac)
    requires LatestFrom(Engine.Latest(before), steps) <= now
    ensures var w := Onward(Engine.Run(master, channel, before, oracle).Freed(mac), steps, oracle);
      (exists command :: command in TickCommands(w, oracle, now) && command.mac == mac)
      <==> w.AtDrive(oracle, now).alarm && mac in FanMacs(w.AtDrive(oracle, now))
  {
    hide World.Freed, World.AtDrive, PartsFit, LogsFit, Undisturbed, LetGo, Onward, TickCommands, FanMacs;
    var w, start := Engine.Run(master, channel, before, oracle), Engine.Latest(before);
    RunFits(master, channel, before, oracle);
    FreedFits(w, mac, start);
    ReleaseLetsGo(w, mac, start);
    SilenceLasts(w.Freed(mac), steps, oracle, mac, start);
    LaterFits(Onward(w.Freed(mac), steps, oracle), LatestFrom(start, steps), now);
    LetGoIsSentIff(Onward(w.Freed(mac), steps, oracle), oracle, now, mac);
  }
}
