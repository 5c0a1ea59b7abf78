/**
  The drive phase as a plan. What it sends, and in which order, is settled by the state it
  starts from; the dongle's answers only decide which sends are recorded as delivered.
 */
module Drive {
  import opened Types
  import opened Groups
  import opened Radio
  import opened Engine
  import Solo
  import Speed
  import FailLog
  import ChangeLog

  /** The group as it stands once the drive phase has set its target; none if it is not driven. */
  function Aimed(w: World, mac: Mac): Option<Group> {
    if w.PercentFor(mac).None? || w.tracker.Group(mac).None? then None
    else
      var g := w.tracker.Group(mac).value;
      Some(g.Asked(Speed.Uniform(g.device.fanCount, w.PercentFor(mac).value)))
  }

  predicate Planned(w: World, mac: Mac, now: Time) {
    Aimed(w, mac).Some? && Aimed(w, mac).value.Due(now)
  }

  function PlannedCommand(w: World, mac: Mac, now: Time): Command
    requires Planned(w, mac, now)
  {
    w.CommandFor(mac, Aimed(w, mac).value.device, Aimed(w, mac).value.target.value)
  }

  function PlanOne(w: World, mac: Mac, now: Time): seq<Command> {
    if Planned(w, mac, now) then [PlannedCommand(w, mac, now)] else []
  }

  /** The commands of a drive phase over these groups: one for each that is driven and due. */
  function Plan(w: World, macs: seq<Mac>, now: Time): seq<Command> {
    if macs == [] then []
    else Plan(w, Front(macs), now) + PlanOne(w, Last(macs), now)
  }

  predicate IsSpeed(call: Call) {
    call.Sent? && call.payload.Duties?
  }

  /** The speed commands among the calls, delivered or not. */
  function Commands(calls: seq<Call>): seq<Command> {
    if calls == [] then []
    else Commands(Front(calls)) + if IsSpeed(Last(calls)) then [Last(calls).payload.command] else []
  }

  lemma {:induction false} CommandsConcat(a: seq<Call>, b: seq<Call>)
    ensures Commands(a + b) == Commands(a) + Commands(b)
  {
    if b == [] {
      assert a + b == a;
    } else {
      assert Front(a + b) == a + Front(b);
      CommandsConcat(a, Front(b));
    }
  }

  /** The calls one state has made beyond another's. */
  function NewCalls(before: World, after: World): seq<Call> {
    if |before.radio.calls| <= |after.radio.calls| then after.radio.calls[|before.radio.calls|..] else []
  }

  ghost predicate Extends(before: World, after: World) {
    after.radio.calls == before.radio.calls + NewCalls(before, after)
  }

  /** How a driven group ends: aimed, and recorded as delivered only if it was due. */
  ghost predicate Settled(w: World, mac: Mac, now: Time, after: Option<Group>) {
    match Aimed(w, mac)
    case None => after == w.tracker.Group(mac)
    case Some(aimed) => after == Some(aimed) || (aimed.Due(now) && after == Some(aimed.Delivered(now)))
  }

  ghost predicate SameDevices(t: Tracker, u: Tracker) {
    && t.masterMac == u.masterMac && t.order == u.order
    && forall mac ::
      && (t.Group(mac).Some? <==> u.Group(mac).Some?)
      && (t.Group(mac).Some? ==> t.Group(mac).value.device == u.Group(mac).value.device)
  }

  lemma {:induction false} SameListing(t: Tracker, u: Tracker, macs: seq<Mac>)
    requires SameDevices(t, u)
    ensures Devices(Listing(t.groups, macs)) == Devices(Listing(u.groups, macs))
  {
    if macs != [] {
      SameListing(t, u, Front(macs));
      assert t.Group(Last(macs)).Some? <==> u.Group(Last(macs)).Some?;
    }
  }

  lemma SameSlots(t: Tracker, u: Tracker, mac: Mac)
    requires SameDevices(t, u)
    ensures t.SlotOf(mac) == u.SlotOf(mac)
  {
    SameListing(t, u, t.order);
  }

  /** What stays put while groups are driven. */
  ghost predicate Steady(w: World, v: World) {
    && v.radio.masterMac == w.radio.masterMac && v.channel == w.channel
    && v.alarm == w.alarm && v.wanted == w.wanted && v.recovery == w.recovery && v.beat == w.beat
    && Unique(v.tracker.groups)
    && SameDevices(w.tracker, v.tracker)
    && Extends(w, v)
  }

  lemma SteadyTwice(u: World, v: World, w: World)
    requires Steady(u, v) && Steady(v, w)
    ensures Steady(u, w)
    ensures NewCalls(u, w) == NewCalls(u, v) + NewCalls(v, w)
  {
    assert w.radio.calls == u.radio.calls + (NewCalls(u, v) + NewCalls(v, w));
    forall mac
      ensures (u.tracker.Group(mac).Some? <==> w.tracker.Group(mac).Some?)
        && (u.tracker.Group(mac).Some? ==> u.tracker.Group(mac).value.device == w.tracker.Group(mac).value.device)
    {
      assert u.tracker.Group(mac).Some? <==> v.tracker.Group(mac).Some?;
    }
  }

  /** A change that keeps the device keeps everything that `Steady` is about. */
  lemma TrackSteady(w: World, op: Solo.Op)
    requires Unique(w.tracker.groups) && (op.Target? || op.Deliver?)
    ensures Steady(w, w.Track(op)) && NewCalls(w, w.Track(op)) == []
    ensures forall mac ::
      w.Track(op).tracker.Group(mac) == Solo.ApplyOne(w.tracker.Group(mac), op, w.tracker.masterMac, mac)
  {
    var v := w.Track(op);
    Solo.ApplyIsLocal(w.tracker, op, op.mac);
    forall mac
      ensures v.tracker.Group(mac) == Solo.ApplyOne(w.tracker.Group(mac), op, w.tracker.masterMac, mac)
    {
      Solo.ApplyIsLocal(w.tracker, op, mac);
    }
  }

  lemma SendSteady(w: World, mac: Mac, oracle: Oracle, now: Time)
    requires Unique(w.tracker.groups)
    ensures var v := w.SendIfDue(mac, oracle, now);
      && Steady(w, v)
      && (forall m :: m != mac ==> v.tracker.Group(m) == w.tracker.Group(m))
      && match w.tracker.Group(mac)
         case None => v == w
         case Some(g) =>
           if !g.Due(now) then v == w
           else
             && |NewCalls(w, v)| == 1
             && NewCalls(w, v)[0] == Sent(g.device.channel, g.device.receiver,
                  Duties(w.CommandFor(mac, g.device, g.target.value)), oracle(|w.radio.calls|).sendError, now)
             && v.tracker.Group(mac)
                == Some(if oracle(|w.radio.calls|).sendError.None? then g.Delivered(now) else g)
  {
    var g := w.tracker.Group(mac);
    assert NewCalls(w, w) == [];
    if g.Some? && g.value.Due(now) {
      hide World.Fail, World.Track, World.CommandFor, Tracker.Group;
      var command := w.CommandFor(mac, g.value.device, g.value.target.value);
      var (after, error) :=
        w.radio.Send(oracle, g.value.device.channel, g.value.device.receiver, Duties(command), now);
      TrackSteady(w.(radio := after), Solo.Deliver(mac, now));
      FailSteady(w.(radio := after), FailLog.SendFailed(mac, if error.Some? then error.value else ""), now);
      assert w.(radio := after).radio.calls[|w.radio.calls|..] == [Sent(g.value.device.channel,
        g.value.device.receiver, Duties(command), error, now)];
    }
  }

  lemma FailSteady(w: World, message: FailLog.Message, now: Time)
    ensures var v := w.Fail(message, now);
      v.tracker == w.tracker && v.radio == w.radio && v.channel == w.channel && v.alarm == w.alarm
      && v.wanted == w.wanted && v.recovery == w.recovery && v.beat == w.beat
  {
  }

  /** Every call of a drive phase is a speed command on its device's own channel and receiver type. */
  ghost predicate SpeedCalls(w: World, calls: seq<Call>) {
    forall call :: call in calls ==>
      && IsSpeed(call)
      && w.tracker.Group(call.payload.command.mac).Some?
      && var device := w.tracker.Group(call.payload.command.mac).value.device;
         call.channel == device.channel && call.receiver == device.receiver
  }

  /** The state just before a group's send: its target set, and the change noted if it is one. */
  function AimedWorld(w: World, mac: Mac, now: Time): World
    requires Aimed(w, mac).Some?
  {
    var g, percent := w.tracker.Group(mac).value, w.PercentFor(mac).value;
    var wish := Speed.Uniform(g.device.fanCount, percent);
    var target := Speed.Prepared(g.device, wish);
    var aimed := w.Track(Solo.Target(mac, wish));
    if g.target == Some(target) then aimed
    else aimed.Change(mac, ChangeLog.Change(percent, Shown(g.device.fanCount, target)), now)
  }

  lemma AimedSteady(w: World, mac: Mac, now: Time)
    requires Unique(w.tracker.groups) && Aimed(w, mac).Some?
    ensures var v := AimedWorld(w, mac, now);
      && Steady(w, v) && NewCalls(w, v) == []
      && v.tracker.Group(mac) == Aimed(w, mac)
      && forall m :: m != mac ==> v.tracker.Group(m) == w.tracker.Group(m)
  {
    var g, percent := w.tracker.Group(mac).value, w.PercentFor(mac).value;
    TrackSteady(w, Solo.Target(mac, Speed.Uniform(g.device.fanCount, percent)));
  }

  lemma DriveOneIs(w: World, mac: Mac, oracle: Oracle, now: Time)
    ensures w.DriveOne(mac, oracle, now)
      == if Aimed(w, mac).None? then w else AimedWorld(w, mac, now).SendIfDue(mac, oracle, now)
  {
  }

  lemma OneCommand(calls: seq<Call>)
    requires |calls| == 1 && IsSpeed(calls[0])
    ensures Commands(calls) == [calls[0].payload.command]
  {
    assert Front(calls) == [];
  }

  /** One group's send, seen from the state before its target was set. */
  lemma AimedSend(w: World, u: World, mac: Mac, oracle: Oracle, now: Time)
    requires Unique(u.tracker.groups) && Steady(w, u) && NewCalls(w, u) == []
    requires Aimed(w, mac).Some? && u.tracker.Group(mac) == Aimed(w, mac)
    ensures var v := u.SendIfDue(mac, oracle, now);
      && Commands(NewCalls(u, v)) == PlanOne(w, mac, now)
      && SpeedCalls(w, NewCalls(u, v))
      && Settled(w, mac, now, v.tracker.Group(mac))
  {
    hide World.SendIfDue, World.PercentFor, Tracker.SlotOf, Speed.Uniform, Speed.Prepared;
    SendSteady(u, mac, oracle, now);
    SameSlots(w.tracker, u.tracker, mac);
    var aimed := Aimed(w, mac).value;
    assert aimed.device == w.tracker.Group(mac).value.device && aimed.device.mac == mac;
    if Planned(w, mac, now) {
      OneCommand(NewCalls(u, u.SendIfDue(mac, oracle, now)));
      assert u.CommandFor(mac, aimed.device, aimed.target.value) == PlannedCommand(w, mac, now);
    }
  }

  /** One group driven, seen from the state its drive phase began in. */
  lemma DriveOnePlan(w: World, mac: Mac, oracle: Oracle, now: Time)
    requires Unique(w.tracker.groups)
    ensures var v := w.DriveOne(mac, oracle, now);
      && Steady(w, v)
      && Commands(NewCalls(w, v)) == PlanOne(w, mac, now)
      && SpeedCalls(w, NewCalls(w, v))
      && Settled(w, mac, now, v.tracker.Group(mac))
      && forall m :: m != mac ==> v.tracker.Group(m) == w.tracker.Group(m)
  {
    hide World.SendIfDue, World.DriveOne, World.PercentFor, AimedWorld, Tracker.SlotOf, Speed.Uniform, Speed.Prepared;
    DriveOneIs(w, mac, oracle, now);
    if Aimed(w, mac).Some? {
      var u := AimedWorld(w, mac, now);
      AimedSteady(w, mac, now);
      AimedSend(w, u, mac, oracle, now);
      SendSteady(u, mac, oracle, now);
      SteadyTwice(w, u, u.SendIfDue(mac, oracle, now));
    }
  }

  lemma SameAim(w: World, v: World, mac: Mac, now: Time)
    requires Steady(w, v) && v.tracker.Group(mac) == w.tracker.Group(mac)
    ensures Aimed(v, mac) == Aimed(w, mac) && PlanOne(v, mac, now) == PlanOne(w, mac, now)
    ensures forall after :: Settled(v, mac, now, after) <==> Settled(w, mac, now, after)
  {
    SameSlots(w.tracker, v.tracker, mac);
  }

  /** `v` is where driving these groups, in this order, can have left `w`. */
  ghost predicate Follows(w: World, macs: seq<Mac>, now: Time, v: World) {
    && Steady(w, v)
    && Commands(NewCalls(w, v)) == Plan(w, macs, now)
    && SpeedCalls(w, NewCalls(w, v))
    && (forall m :: m in macs ==> Settled(w, m, now, v.tracker.Group(m)))
    && (forall m :: m !in macs ==> v.tracker.Group(m) == w.tracker.Group(m))
  }

  lemma FollowsOneMore(w: World, macs: seq<Mac>, mac: Mac, u: World, oracle: Oracle, now: Time)
    requires Follows(w, macs, now, u) && mac !in macs
    ensures Follows(w, macs + [mac], now, u.DriveOne(mac, oracle, now))
  {
    hide World.DriveOne, Aimed, PlanOne, Settled;
    var v := u.DriveOne(mac, oracle, now);
    DriveOnePlan(u, mac, oracle, now);
    SteadyTwice(w, u, v);
    SameAim(w, u, mac, now);
    CommandsConcat(NewCalls(w, u), NewCalls(u, v));
    assert Front(macs + [mac]) == macs;
    forall m | m in macs + [mac] ensures Settled(w, m, now, v.tracker.Group(m)) {
      if m != mac {
        assert v.tracker.Group(m) == u.tracker.Group(m);
      }
    }
    SpeedCallsAdd(w, u, NewCalls(w, u), NewCalls(u, v));
  }

  lemma SpeedCallsAdd(w: World, u: World, a: seq<Call>, b: seq<Call>)
    requires SpeedCalls(w, a) && SpeedCalls(u, b) && SameDevices(w.tracker, u.tracker)
    ensures SpeedCalls(w, a + b)
  {
    forall call | call in b
      ensures IsSpeed(call) && w.tracker.Group(call.payload.command.mac).Some?
        && w.tracker.Group(call.payload.command.mac).value.device.channel == call.channel
        && w.tracker.Group(call.payload.command.mac).value.device.receiver == call.receiver
    {
      var mac := call.payload.command.mac;
      assert w.tracker.Group(mac).Some? <==> u.tracker.Group(mac).Some?;
    }
  }

  /** The whole phase follows the plan made of the state it starts from. */
  lemma {:induction false} DriveAllPlan(w: World, macs: seq<Mac>, oracle: Oracle, now: Time)
    requires Unique(w.tracker.groups) && Distinct(macs)
    ensures Follows(w, macs, now, w.DriveAll(macs, oracle, now))
  {
    if macs != [] {
      hide World.DriveOne, Follows;
      assert macs == Front(macs) + [Last(macs)] && Last(macs) !in Front(macs);
      DriveAllPlan(w, Front(macs), oracle, now);
      FollowsOneMore(w, Front(macs), Last(macs), w.DriveAll(Front(macs), oracle, now), oracle, now);
    }
  }
}
