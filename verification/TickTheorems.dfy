/** What one tick guarantees from any reachable state, whatever the dongle answers. */
module TickTheorems {
  import opened Types
  import opened Seqs
  import opened Groups
  import opened Radio
  import opened Engine
  import opened EngineHistory
  import opened Drive
  import opened Roster
  import opened EngineTick
  import Solo
  import SlotOrder
  import Recovery
  import Speed

  /** The speed commands a tick attempts, in order. */
  function TickCommands(w: World, oracle: Oracle, now: Time): seq<Command> {
    Commands(NewCalls(w, w.Tick(oracle, now)))
  }

  lemma Regroup<T>(base: seq<T>, a: seq<T>, b: seq<T>, c: seq<T>)
    ensures base + a + b + c == base + (a + b + c)
  {
  }

  lemma CallsBeyond(w: World, after: World, more: seq<Call>)
    requires after.radio.calls == w.radio.calls + more
    ensures Extends(w, after) && NewCalls(w, after) == more
  {
  }

  /** Calls made in three stretches, one after the other. */
  lemma ThreeStretches(w: World, after: World, a: seq<Call>, b: seq<Call>, c: seq<Call>)
    requires after.radio.calls == w.radio.calls + a + b + c
    ensures Extends(w, after) && NewCalls(w, after) == a + b + c
    ensures Commands(NewCalls(w, after)) == Commands(a) + Commands(b) + Commands(c)
  {
    hide Extends, NewCalls, Commands;
    Regroup(w.radio.calls, a, b, c);
    CallsBeyond(w, after, a + b + c);
    CommandsConcat(a + b, c);
    CommandsConcat(a, b);
  }

  lemma CommandsArePlanned(w: World, oracle: Oracle, now: Time)
    requires Consistent(w, now)
    ensures Extends(w, w.Tick(oracle, now))
    ensures TickCommands(w, oracle, now) == Plan(w.AtDrive(oracle, now), FanMacs(w.AtDrive(oracle, now)), now)
  {
    hide World.Tick, World.AtDrive, Plan, PartsFit, LogsFit, Driven, NewCalls, Extends, Commands;
    TickShape(w, oracle, now);
    var ready, driven, after := w.AtDrive(oracle, now), Driven(w, oracle, now), w.Tick(oracle, now);
    ThreeStretches(w, after, NewCalls(w, ready), NewCalls(ready, driven), NewCalls(driven, after));
    NoCommands(NewCalls(driven, after));
    NothingAround(Plan(ready, FanMacs(ready), now));
  }

  lemma NothingAround(plan: seq<Command>)
    ensures [] + plan + [] == plan
  {
  }

  lemma {:induction false} NoCommands(calls: seq<Call>)
    requires forall call :: call in calls ==> call.Reconnected?
    ensures Commands(calls) == []
  {
    if calls != [] {
      assert Last(calls) in calls;
      NoCommands(Front(calls));
    }
  }

  lemma {:induction false} SameFansOver(t: Tracker, u: Tracker, macs: seq<Mac>, fan: Group -> bool)
    requires SameDevices(t, u)
    requires forall g: Group, h: Group :: g.device == h.device ==> fan(g) == fan(h)
    ensures Devices(Filter(Listing(t.groups, macs), fan)) == Devices(Filter(Listing(u.groups, macs), fan))
  {
    if macs != [] {
      SameFansOver(t, u, Front(macs), fan);
      var g, h := t.Group(Last(macs)), u.Group(Last(macs));
      assert g.Some? <==> h.Some?;
      if g.Some? {
        FilterConcat(Listing(t.groups, Front(macs)), [g.value], fan);
        FilterConcat(Listing(u.groups, Front(macs)), [h.value], fan);
        FilterOne(g.value, fan);
        FilterOne(h.value, fan);
        assert Devices(Filter([g.value], fan)) == Devices(Filter([h.value], fan));
        DevicesConcat(Filter(Listing(t.groups, Front(macs)), fan), Filter([g.value], fan));
        DevicesConcat(Filter(Listing(u.groups, Front(macs)), fan), Filter([h.value], fan));
      } else {
        assert Listing(t.groups, macs) == Listing(t.groups, Front(macs));
        assert Listing(u.groups, macs) == Listing(u.groups, Front(macs));
      }
    }
  }

  lemma FilterOne<T>(x: T, keep: T -> bool)
    ensures Filter([x], keep) == if keep(x) then [x] else []
  {
    assert Front([x]) == [];
  }

  lemma DevicesConcat(a: seq<Group>, b: seq<Group>)
    ensures Devices(a + b) == Devices(a) + Devices(b)
  {
  }

  lemma SameFans(t: Tracker, u: Tracker)
    requires SameDevices(t, u)
    ensures Macs(t.DrivenFans()) == Macs(u.DrivenFans())
  {
    SameFansOver(t, u, t.order, (g: Group) => g.BoundTo(t.masterMac) && g.HasFans());
    assert forall i :: 0 <= i < |t.DrivenFans()| ==>
      Devices(t.DrivenFans())[i].mac == Devices(u.DrivenFans())[i].mac;
  }

  /** Where a tick leaves the groups: those it drives settled, all others as the drive found them. */
  lemma TickSettles(w: World, oracle: Oracle, now: Time)
    requires Consistent(w, now)
    ensures var ready, after := w.AtDrive(oracle, now), w.Tick(oracle, now);
      && Sane(ready.tracker) && Current(ready.tracker, now)
      && Sane(after.tracker) && Current(after.tracker, now)
      && SameDevices(ready.tracker, after.tracker)
      && FanMacs(after) == FanMacs(ready)
      && after.wanted == ready.wanted == w.wanted
      && (forall m :: m in FanMacs(ready) ==> Settled(ready, m, now, after.tracker.Group(m)))
      && (forall m :: m !in FanMacs(ready) ==> after.tracker.Group(m) == ready.tracker.Group(m))
      && (forall m :: ready.tracker.Group(m).Some? ==> TargetOf(ready.tracker, m) == TargetOf(w.tracker, m))
  {
    hide World.Tick, World.AtDrive, Plan, PartsFit, LogsFit, Driven;
    ConsistentIsSane(w, now);
    AtDriveIs(w, oracle, now);
    DrivenFollows(w, oracle, now);
    TickIs(w, oracle, now);
    RestIs(Driven(w, oracle, now), oracle, now);
    TickFits(w, oracle, now);
    ConsistentIsSane(w.Tick(oracle, now), now);
    SameFans(w.AtDrive(oracle, now).tracker, w.Tick(oracle, now).tracker);
    SettledIsCurrent(w.AtDrive(oracle, now), w.Tick(oracle, now), now);
  }

  /** Driving a group does not change when it was last heard. */
  lemma SettledIsCurrent(ready: World, after: World, now: Time)
    requires Current(ready.tracker, now) && after.tracker.order == ready.tracker.order
    requires forall m :: m in FanMacs(ready) ==> Settled(ready, m, now, after.tracker.Group(m))
    requires forall m :: m !in FanMacs(ready) ==> after.tracker.Group(m) == ready.tracker.Group(m)
    ensures Current(after.tracker, now)
  {
    forall m ensures after.tracker.Hears(m, now) <==> ready.tracker.Hears(m, now) {
      if m in FanMacs(ready) {
        assert Settled(ready, m, now, after.tracker.Group(m));
      }
    }
  }

  /**
    Target determination. After every tick each online bound fan group's target is full speed if
    the alarm held when groups were driven, the prepared uniform duty of its wanted percentage if
    it has one, and otherwise what it was before the tick, nothing if it was not known then.
   */
  lemma TargetDetermined(w: World, oracle: Oracle, now: Time, g: Group)
    requires Consistent(w, now) && g in w.Tick(oracle, now).tracker.DrivenFans()
    ensures var alarm := w.AtDrive(oracle, now).alarm;
      g.target ==
        if alarm then Some(Speed.Prepared(g.device, Speed.Uniform(g.device.fanCount, 100)))
        else if g.Mac() in w.wanted then
          Some(Speed.Prepared(g.device, Speed.Uniform(g.device.fanCount, w.wanted[g.Mac()])))
        else TargetOf(w.tracker, g.Mac())
  {
    hide World.Tick, World.AtDrive, PartsFit, LogsFit, Speed.Prepared, Speed.Uniform;
    TickSettles(w, oracle, now);
    FanInAfter(w, oracle, now, g);
    assert Settled(w.AtDrive(oracle, now), g.Mac(), now, Some(g));
  }

  lemma FanInAfter(w: World, oracle: Oracle, now: Time, g: Group)
    requires Consistent(w, now) && g in w.Tick(oracle, now).tracker.DrivenFans()
    ensures w.Tick(oracle, now).tracker.Group(g.Mac()) == Some(g)
    ensures g.Mac() in FanMacs(w.AtDrive(oracle, now))
    ensures w.AtDrive(oracle, now).tracker.Group(g.Mac()).Some?
    ensures w.AtDrive(oracle, now).tracker.Group(g.Mac()).value.device == g.device
  {
    hide World.Tick, World.AtDrive, PartsFit, LogsFit;
    TickSettles(w, oracle, now);
    var after := w.Tick(oracle, now);
    FansAre(after.tracker);
    SlotOrder.MacsOf(after.tracker.DrivenFans(), g.Mac());
    assert w.AtDrive(oracle, now).tracker.Group(g.Mac()).Some? <==> after.tracker.Group(g.Mac()).Some?;
  }

  lemma {:induction false} PlanHas(w: World, macs: seq<Mac>, now: Time, mac: Mac)
    requires mac in macs && Planned(w, mac, now)
    ensures PlannedCommand(w, mac, now) in Plan(w, macs, now)
  {
    if mac != Last(macs) {
      assert macs == Front(macs) + [Last(macs)];
      PlanHas(w, Front(macs), now, mac);
    }
  }

  lemma {:induction false} PlanOnly(w: World, macs: seq<Mac>, now: Time, command: Command)
    requires command in Plan(w, macs, now)
    ensures command.mac in macs && Planned(w, command.mac, now) && command == PlannedCommand(w, command.mac, now)
  {
    if command in Plan(w, Front(macs), now) {
      PlanOnly(w, Front(macs), now, command);
    } else {
      assert Planned(w, Last(macs), now) && command == PlannedCommand(w, Last(macs), now);
      Solo.GetIn(w.tracker.groups, Last(macs));
    }
  }

  /** A tick sends to exactly the groups it drives whose aimed target is due. */
  lemma SentIff(w: World, oracle: Oracle, now: Time, mac: Mac)
    requires Consistent(w, now)
    ensures var ready := w.AtDrive(oracle, now);
      (exists command :: command in TickCommands(w, oracle, now) && command.mac == mac)
      <==> mac in FanMacs(ready) && Planned(ready, mac, now)
  {
    hide World.Tick, World.AtDrive, PartsFit, LogsFit, Speed.Prepared, Speed.Uniform, World.PercentFor;
    var ready := w.AtDrive(oracle, now);
    TickSettles(w, oracle, now);
    CommandsArePlanned(w, oracle, now);
    if command :| command in TickCommands(w, oracle, now) && command.mac == mac {
      PlanOnly(ready, FanMacs(ready), now, command);
    }
    if mac in FanMacs(ready) && Planned(ready, mac, now) {
      FanMac(ready.tracker, mac);
      PlanHas(ready, FanMacs(ready), now, mac);
    }
  }

  /**
    A target that changed is attempted in that same tick. So a group forgotten and heard again,
    whose wish was kept, is driven at once: it had no target before the tick.
   */
  lemma ChangedTargetIsSent(w: World, oracle: Oracle, now: Time, g: Group)
    requires Consistent(w, now) && g in w.Tick(oracle, now).tracker.DrivenFans()
    requires g.target != TargetOf(w.tracker, g.Mac())
    ensures exists command ::
      command in TickCommands(w, oracle, now) && command.mac == g.Mac() && g.target == Some(command.duty)
  {
    hide World.Tick, World.AtDrive, PartsFit, LogsFit, Speed.Prepared, Speed.Uniform;
    var ready, mac := w.AtDrive(oracle, now), g.Mac();
    TickSettles(w, oracle, now);
    FanInAfter(w, oracle, now, g);
    CommandsArePlanned(w, oracle, now);
    assert Settled(ready, mac, now, Some(g));
    var aimed := Aimed(ready, mac).value;
    assert aimed.target == g.target && aimed.lastSent.None?;
    PlanHas(ready, FanMacs(ready), now, mac);
    assert PlannedCommand(ready, mac, now).duty == g.target.value;
  }

  /** The floor: every command of a tick has all the group's fans at 30 % or more and its other slots off. */
  lemma TickKeepsFloor(w: World, oracle: Oracle, now: Time, command: Command)
    requires Consistent(w, now) && command in TickCommands(w, oracle, now)
    ensures var g := w.Tick(oracle, now).tracker.Group(command.mac);
      && g.Some? && g.value in w.Tick(oracle, now).tracker.DrivenFans()
      && g.value.target == Some(command.duty)
      && g.value.device.fanCount > 0
      && Speed.DrivesAllFans(g.value.device, command.duty)
  {
    hide World.Tick, World.AtDrive, PartsFit, LogsFit, Speed.Prepared, Speed.Uniform, Speed.DrivesAllFans;
    var ready, after, mac := w.AtDrive(oracle, now), w.Tick(oracle, now), command.mac;
    TickSettles(w, oracle, now);
    CommandsArePlanned(w, oracle, now);
    PlanOnly(ready, FanMacs(ready), now, command);
    FanMac(after.tracker, mac);
    WishesHold(w, now);
    SettledIsDriven(ready, mac, now, after.tracker.Group(mac));
    var g := after.tracker.Group(mac).value;
    HasFansOf(after.tracker, g);
    Speed.PreparedUniform(g.device, ready.PercentFor(mac).value);
  }

  lemma HasFansOf(t: Tracker, g: Group)
    requires Sane(t) && g in t.DrivenFans()
    ensures g.HasFans()
  {
    FansAre(t);
  }

  /** A driven group's target is the prepared uniform duty of its percentage, whether or not it was delivered. */
  lemma SettledIsDriven(ready: World, mac: Mac, now: Time, after: Option<Group>)
    requires Settled(ready, mac, now, after) && Aimed(ready, mac).Some?
    ensures ready.PercentFor(mac).Some? && after.Some? && ready.tracker.Group(mac).Some?
    ensures after.value.device == ready.tracker.Group(mac).value.device
    ensures var device := after.value.device;
      after.value.target == Aimed(ready, mac).value.target
      == Some(Speed.Prepared(device, Speed.Uniform(device.fanCount, ready.PercentFor(mac).value)))
  {
    hide Speed.Prepared, Speed.Uniform, World.PercentFor;
  }

  lemma WishesHold(w: World, now: Time)
    requires Consistent(w, now)
    ensures WishesInRange(w.wanted)
  {
    WishesAreInRange(w.past.requests);
  }

  /** Failsafe. A tick whose drive sees the alarm leaves every online bound fan group at full speed on all its fans. */
  lemma FailsafeTick(w: World, oracle: Oracle, now: Time, g: Group)
    requires Consistent(w, now) && w.AtDrive(oracle, now).alarm
    requires g in w.Tick(oracle, now).tracker.DrivenFans()
    ensures g.target.Some? && forall slot :: 0 <= slot < FANS_PER_GROUP ==>
      g.target.value[slot] == if slot < Speed.Fans(g.device) then Speed.MAX_DUTY else 0
  {
    hide World.Tick, World.AtDrive, PartsFit, LogsFit;
    TargetDetermined(w, oracle, now, g);
    FansAre(w.Tick(oracle, now).tracker) by {
      TickSettles(w, oracle, now);
    }
    Speed.PreparedFullSpeed(g.device);
  }

  /** A tick's reconnect comes after its poll and all its speed commands: it is the last call, and only when due. */
  lemma SendsPrecedeReconnect(w: World, oracle: Oracle, now: Time, i: nat, j: nat)
    requires Consistent(w, now)
    requires i < |NewCalls(w, w.Tick(oracle, now))| && j < |NewCalls(w, w.Tick(oracle, now))|
    requires NewCalls(w, w.Tick(oracle, now))[i].Reconnected? && i != j
    ensures j < i && i == |NewCalls(w, w.Tick(oracle, now))| - 1
    ensures w.AtDrive(oracle, now).recovery.Attempts(now)
  {
    hide World.Tick, World.AtDrive, Plan, PartsFit, LogsFit, Driven, NewCalls, Extends, Commands;
    TickShape(w, oracle, now);
    var ready, driven, after := w.AtDrive(oracle, now), Driven(w, oracle, now), w.Tick(oracle, now);
    var a, b, c := NewCalls(w, ready), NewCalls(ready, driven), NewCalls(driven, after);
    ThreeStretches(w, after, a, b, c);
    OnlyTheLast(a, b, c, i, j);
  }

  lemma OnlyTheLast(a: seq<Call>, b: seq<Call>, c: seq<Call>, i: nat, j: nat)
    requires (forall call :: call in a ==> !call.Reconnected?) && (forall call :: call in b ==> IsSpeed(call))
    requires |c| <= 1 && i < |a + b + c| && j < |a + b + c| && (a + b + c)[i].Reconnected? && i != j
    ensures j < i == |a + b + c| - 1 && c != []
  {
    assert (a + b + c)[i] in a || (a + b + c)[i] in b || i >= |a| + |b|;
  }

  /** At every tick's end the alarm is set exactly when three polls or more have failed since the last success. */
  lemma AlarmAfterTick(w: World, oracle: Oracle, now: Time)
    requires Consistent(w, now)
    ensures var after := w.Tick(oracle, now);
      after.alarm <==> Recovery.FailedPolls(after.recovery.acts) >= 3
  {
    hide World.Tick, World.AtDrive, PartsFit, LogsFit, Driven, Plan, Settled;
    var after := w.Tick(oracle, now);
    ConsistentIsSane(w, now);
    AtDriveIs(w, oracle, now);
    DrivenFollows(w, oracle, now);
    TickIs(w, oracle, now);
    RestIs(Driven(w, oracle, now), oracle, now);
    TickFits(w, oracle, now);
    RecoveryHolds(after, now);
  }

  /** A tick drives under the alarm exactly when three polls, its own included, have failed since the last success. */
  lemma AlarmAtDrive(w: World, oracle: Oracle, now: Time)
    requires Consistent(w, now)
    ensures var ready := w.AtDrive(oracle, now);
      ready.alarm <==> Recovery.FailedPolls(ready.recovery.acts) >= 3
  {
    hide World.AtDrive, PartsFit, LogsFit;
    ConsistentIsSane(w, now);
    AtDriveIs(w, oracle, now);
    AtDriveFits(w, oracle, now);
    RecoveryHolds(w.AtDrive(oracle, now), now);
  }

  lemma RecoveryHolds(w: World, now: Time)
    requires Consistent(w, now)
    ensures w.recovery == Recovery.Run(w.past.recovery)
    ensures Recovery.Fits(w.recovery)
  {
    Recovery.RunFits(w.past.recovery);
  }

  /** All groups driven in one tick have their place in the list, and no two of them share a slot. */
  lemma SlotsOfOneTick(w: World, oracle: Oracle, now: Time, i: nat, j: nat)
    requires Consistent(w, now) && |Slotted(w.AtDrive(oracle, now).tracker)| <= 256
    requires i < j < |TickCommands(w, oracle, now)|
    ensures TickCommands(w, oracle, now)[i].mac != TickCommands(w, oracle, now)[j].mac
    ensures TickCommands(w, oracle, now)[i].slot != TickCommands(w, oracle, now)[j].slot
  {
    hide World.Tick, World.AtDrive, PartsFit, LogsFit;
    var ready := w.AtDrive(oracle, now);
    TickSettles(w, oracle, now);
    CommandsArePlanned(w, oracle, now);
    FansAre(ready.tracker);
    PlanDistinct(ready, FanMacs(ready), now, i, j);
    var a, b := TickCommands(w, oracle, now)[i], TickCommands(w, oracle, now)[j];
    PlanOnly(ready, FanMacs(ready), now, a);
    PlanOnly(ready, FanMacs(ready), now, b);
    FanSlotsDiffer(ready.tracker, a.mac, b.mac);
  }

  lemma {:induction false} PlanDistinct(w: World, macs: seq<Mac>, now: Time, i: nat, j: nat)
    requires Distinct(macs) && i < j < |Plan(w, macs, now)|
    ensures Plan(w, macs, now)[i].mac != Plan(w, macs, now)[j].mac
  {
    var front := Plan(w, Front(macs), now);
    assert macs == Front(macs) + [Last(macs)] && Last(macs) !in Front(macs);
    if j < |front| {
      PlanDistinct(w, Front(macs), now, i, j);
    } else {
      PlanOnly(w, Front(macs), now, front[i]);
      Solo.GetIn(w.tracker.groups, Last(macs));
    }
  }

  /** A driven fan's device is among those that take slots. */
  lemma FanIsSlotted(t: Tracker, mac: Mac) returns (i: nat)
    requires Sane(t) && mac in Macs(t.DrivenFans())
    ensures i < |Slotted(t)| && Slotted(t)[i].mac == mac
  {
    FanMac(t, mac);
    FansAre(t);
    var g := t.Group(mac).value;
    ListedMacs(t);
    var k := Find(t.order, mac);
    assert Devices(t.Listed())[k] == g.device;
    assert g.device in Devices(t.Listed());
    FilterMembers(Devices(t.Listed()), Speed.BoundTo(t.masterMac));
    i := Find(Slotted(t), g.device);
  }

  /** Every command names its group's place among the online bound devices, never the answer for a stranger. */
  lemma CommandsCarrySlots(w: World, oracle: Oracle, now: Time, command: Command) returns (i: nat)
    requires Consistent(w, now) && command in TickCommands(w, oracle, now)
    ensures var slotted := Slotted(w.AtDrive(oracle, now).tracker);
      i < |slotted| && slotted[i].mac == command.mac && command.slot == (i + 1) % 256
  {
    hide World.Tick, World.AtDrive, PartsFit, LogsFit;
    var ready := w.AtDrive(oracle, now);
    TickSettles(w, oracle, now);
    CommandsArePlanned(w, oracle, now);
    PlanOnly(ready, FanMacs(ready), now, command);
    i := FanIsSlotted(ready.tracker, command.mac);
    SlotsInOrder(ready.tracker, i);
    FanMac(ready.tracker, command.mac);
  }

  lemma FanSlotsDiffer(t: Tracker, a: Mac, b: Mac)
    requires Sane(t) && |Slotted(t)| <= 256
    requires a in Macs(t.DrivenFans()) && b in Macs(t.DrivenFans()) && a != b
    ensures t.SlotOf(a) != t.SlotOf(b)
  {
    var i := FanIsSlotted(t, a);
    var j := FanIsSlotted(t, b);
    SlotsInOrder(t, i);
    SlotsInOrder(t, j);
  }
}
