/** The stop: each unconfirmed target is sent once more, exactly as it stands. */
module Shutdown {
  import opened Types
  import opened Groups
  import opened Radio
  import opened Engine
  import opened EngineHistory
  import opened Drive
  import opened Roster
  import opened EngineTick
  import Solo
  import Speed

  /** A listed group gets a last send if it has a target not seen applied. */
  predicate Owed(w: World, mac: Mac, now: Time) {
    && w.tracker.Group(mac).Some?
    && w.tracker.Group(mac).value.target.Some?
    && !w.tracker.Group(mac).value.IsAcknowledged(now)
  }

  function OwedCommand(w: World, mac: Mac, now: Time): Command
    requires Owed(w, mac, now)
  {
    w.CommandFor(mac, w.tracker.Group(mac).value.device, w.tracker.Group(mac).value.target.value)
  }

  function OwedOne(w: World, mac: Mac, now: Time): seq<Command> {
    if Owed(w, mac, now) then [OwedCommand(w, mac, now)] else []
  }

  /** The commands of a stop over these groups. */
  function OwedAll(w: World, macs: seq<Mac>, now: Time): seq<Command> {
    if macs == [] then [] else OwedAll(w, Front(macs), now) + OwedOne(w, Last(macs), now)
  }

  /** Recording a delivery leaves every group's target as it is, and when it was heard. */
  ghost predicate SameTargets(t: Tracker, u: Tracker) {
    forall mac :: TargetOf(t, mac) == TargetOf(u, mac) && HeardAt(t, mac) == HeardAt(u, mac)
  }

  function HeardAt(t: Tracker, mac: Mac): Option<Time> {
    if t.Group(mac).Some? then Some(t.Group(mac).value.lastSeen) else None
  }

  lemma LastSendIs(w: World, mac: Mac, oracle: Oracle, now: Time)
    requires Unique(w.tracker.groups)
    ensures var v := w.LastSend(mac, oracle, now);
      && Steady(w, v)
      && SameTargets(w.tracker, v.tracker)
      && Commands(NewCalls(w, v)) == OwedOne(w, mac, now)
      && SpeedCalls(w, NewCalls(w, v))
      && (forall m :: m != mac ==> v.tracker.Group(m) == w.tracker.Group(m))
  {
    hide World.CommandFor, SpeedCalls;
    NoSpeedCalls(w);
    if Owed(w, mac, now) {
      var g := w.tracker.Group(mac).value;
      var command := OwedCommand(w, mac, now);
      CommandMac(w, mac, now);
      var (after, error) := w.radio.Send(oracle, g.device.channel, g.device.receiver, Duties(command), now);
      TrackSteady(w.(radio := after), Solo.Deliver(mac, now));
      var v := w.LastSend(mac, oracle, now);
      assert v.radio == after;
      assert NewCalls(w, v) == [Sent(g.device.channel, g.device.receiver, Duties(command), error, now)];
      OneCommand(NewCalls(w, v));
      OwnSpeedCall(w, mac, command, error, now);
    }
  }

  lemma NoSpeedCalls(w: World)
    ensures SpeedCalls(w, []) && NewCalls(w, w) == []
  {
  }

  /** A command sent on its device's own channel and receiver type. */
  lemma OwnSpeedCall(w: World, mac: Mac, command: Command, error: Option<string>, now: Time)
    requires w.tracker.Group(mac).Some? && command.mac == mac
    ensures var device := w.tracker.Group(mac).value.device;
      SpeedCalls(w, [Sent(device.channel, device.receiver, Duties(command), error, now)])
  {
  }

  lemma CommandMac(w: World, mac: Mac, now: Time)
    requires Owed(w, mac, now)
    ensures OwedCommand(w, mac, now).mac == mac
  {
    Solo.GetIn(w.tracker.groups, mac);
  }

  lemma {:induction false} LastSendsAre(w: World, macs: seq<Mac>, oracle: Oracle, now: Time)
    requires Unique(w.tracker.groups) && Distinct(macs)
    ensures var v := w.LastSends(macs, oracle, now);
      && Steady(w, v)
      && SameTargets(w.tracker, v.tracker)
      && Commands(NewCalls(w, v)) == OwedAll(w, macs, now)
      && SpeedCalls(w, NewCalls(w, v))
      && (forall m :: m !in macs ==> v.tracker.Group(m) == w.tracker.Group(m))
  {
    if macs != [] {
      hide World.LastSend, SpeedCalls;
      var u, mac := w.LastSends(Front(macs), oracle, now), Last(macs);
      assert macs == Front(macs) + [mac] && mac !in Front(macs);
      LastSendsAre(w, Front(macs), oracle, now);
      LastSendIs(u, mac, oracle, now);
      SteadyTwice(w, u, u.LastSend(mac, oracle, now));
      CommandsConcat(NewCalls(w, u), NewCalls(u, u.LastSend(mac, oracle, now)));
      SpeedCallsAdd(w, u, NewCalls(w, u), NewCalls(u, u.LastSend(mac, oracle, now)));
      SameSlots(w.tracker, u.tracker, mac);
      assert OwedOne(u, mac, now) == OwedOne(w, mac, now);
    }
  }

  /** The stop's commands are those owed in the state it starts from; no group's target changes. */
  lemma ShutdownIs(w: World, oracle: Oracle, now: Time)
    requires Consistent(w, now)
    ensures var v := w.Shutdown(oracle, now);
      && Steady(w, v)
      && SameTargets(w.tracker, v.tracker)
      && Commands(NewCalls(w, v)) == OwedAll(w, FanMacs(w), now)
      && SpeedCalls(w, NewCalls(w, v))
  {
    ConsistentIsSane(w, now);
    FansAre(w.tracker);
    LastSendsAre(w, FanMacs(w), oracle, now);
    var v := w.LastSends(FanMacs(w), oracle, now);
    assert w.Shutdown(oracle, now).radio == v.radio && w.Shutdown(oracle, now).tracker == v.tracker;
  }

  lemma {:induction false} OwedOnly(w: World, macs: seq<Mac>, now: Time, command: Command)
    requires command in OwedAll(w, macs, now)
    ensures command.mac in macs && Owed(w, command.mac, now) && command == OwedCommand(w, command.mac, now)
  {
    if command in OwedAll(w, Front(macs), now) {
      OwedOnly(w, Front(macs), now, command);
    } else {
      assert Owed(w, Last(macs), now) && command == OwedCommand(w, Last(macs), now);
      Solo.GetIn(w.tracker.groups, Last(macs));
    }
  }

  /**
    A stop sends to exactly the listed fan groups with a target that was not reported applied within
    the last three seconds.
   */
  lemma StopSendsIff(w: World, oracle: Oracle, now: Time, mac: Mac)
    requires Consistent(w, now)
    ensures (exists command :: command in Commands(NewCalls(w, w.Shutdown(oracle, now))) && command.mac == mac)
      <==> mac in FanMacs(w) && var group := w.tracker.Group(mac);
           && group.Some? && group.value.target.Some?
           && !(Since(now, group.value.lastSeen) <= 3 * SECOND
                && Speed.Matches(group.value.device.duty, group.value.target.value))
  {
    hide World.Shutdown, PartsFit, LogsFit, NewCalls, Commands, Extends, SpeedCalls;
    ShutdownIs(w, oracle, now);
    ConsistentIsSane(w, now);
    var group := w.tracker.Group(mac);
    if group.Some? && group.value.target.Some? {
      Speed.AcknowledgedIff(group.value.device.duty, group.value.target.value);
    }
    if command :| command in Commands(NewCalls(w, w.Shutdown(oracle, now))) && command.mac == mac {
      OwedOnly(w, FanMacs(w), now, command);
    }
    if mac in FanMacs(w) && Owed(w, mac, now) {
      FanMac(w.tracker, mac);
      OwedHas(w, FanMacs(w), now, mac);
    }
  }

  lemma {:induction false} OwedHas(w: World, macs: seq<Mac>, now: Time, mac: Mac)
    requires mac in macs && Owed(w, mac, now)
    ensures OwedCommand(w, mac, now) in OwedAll(w, macs, now)
  {
    if mac != Last(macs) {
      assert macs == Front(macs) + [Last(macs)];
      OwedHas(w, Front(macs), now, mac);
    }
  }
}
