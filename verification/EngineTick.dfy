/** One tick, whole: what it sends, in which order, and where it leaves every group's target. */
module EngineTick {
  import opened Types
  import opened Groups
  import opened Radio
  import opened Engine
  import opened EngineHistory
  import opened Drive
  import opened Roster
  import Solo
  import Unacknowledged
  import Recovery

  /** The groups a tick drives, in order. */
  function FanMacs(w: World): seq<Mac> {
    Macs(w.tracker.DrivenFans())
  }

  /** A percentage a host may get: 30 to 100. */
  ghost predicate WishesInRange(wanted: map<Mac, Byte>) {
    forall mac :: mac in wanted ==> 30 <= wanted[mac] <= 100
  }

  lemma {:induction false} WishesAreInRange(requests: seq<Request>)
    ensures WishesInRange(Wishes(requests))
  {
    if requests != [] {
      WishesAreInRange(Front(requests));
    }
  }

  /** The last request about a group. */
  function LastAbout(requests: seq<Request>, mac: Mac): Option<Request> {
    if requests == [] then None
    else if Last(requests).mac == mac then Some(Last(requests))
    else LastAbout(Front(requests), mac)
  }

  /** A percentage as a host may ask for it: less than 30 counts as 30, more than 100 as 100. */
  predicate Grants(asked: int, percent: int) {
    percent == if asked < 30 then 30 else if asked > 100 then 100 else asked
  }

  /** A group is wished for exactly if the last request about it is a wish, at the percentage it grants. */
  lemma {:induction false} WishIsTheLastAsked(requests: seq<Request>, mac: Mac)
    ensures var last := LastAbout(requests, mac);
      && (mac in Wishes(requests) <==> last.Some? && last.value.Want?)
      && (mac in Wishes(requests) ==> Grants(last.value.percent, Wishes(requests)[mac]))
  {
    if requests != [] {
      WishIsTheLastAsked(Front(requests), mac);
    }
  }

  lemma ConsistentIsSane(w: World, now: Time)
    requires Consistent(w, now)
    ensures Sane(w.tracker)
  {
    RunIsSane(w.tracker.masterMac, w.past.tracker);
  }

  // What the phases before the drive leave alone.

  /** The target a group has, none if it is not known. */
  function TargetOf(t: Tracker, mac: Mac): Option<Quad> {
    if t.Group(mac).Some? then t.Group(mac).value.target else None
  }

  lemma HearingKeepsTargets(t: Tracker, op: Solo.Op, mac: Mac)
    requires Unique(t.groups) && (op.Observe? || op.Sweep?)
    ensures var u := Solo.Apply(t, op);
      Unique(u.groups) && (u.Group(mac).Some? ==> TargetOf(u, mac) == TargetOf(t, mac))
  {
    Solo.ApplyIsLocal(t, op, mac);
    if op.Observe? {
      Unacknowledged.SeeingCounts(t.Group(mac), op.devices, mac, op.at);
    }
  }

  /** What the heartbeat, the poll and the sweep all leave alone, and the calls they do not make. */
  ghost predicate Frame(w: World, v: World) {
    && Extends(w, v)
    && Commands(NewCalls(w, v)) == []
    && (forall call :: call in NewCalls(w, v) ==> !call.Reconnected?)
    && v.wanted == w.wanted && v.channel == w.channel && v.radio.masterMac == w.radio.masterMac
    && v.tracker.masterMac == w.tracker.masterMac
  }

  lemma FrameTwice(u: World, v: World, w: World)
    requires Frame(u, v) && Frame(v, w)
    ensures Frame(u, w) && NewCalls(u, w) == NewCalls(u, v) + NewCalls(v, w)
  {
    var a, b := NewCalls(u, v), NewCalls(v, w);
    assert w.radio.calls == u.radio.calls + (a + b);
    assert NewCalls(u, w) == a + b;
    CommandsConcat(a, b);
  }

  /** The calls of a heartbeat phase: one beacon on the engine's channel if it is due. */
  lemma HeartbeatFrame(w: World, oracle: Oracle, now: Time)
    ensures var v := w.HeartbeatPhase(oracle, now);
      && Frame(w, v) && v.tracker == w.tracker
      && NewCalls(w, v) == if !w.beat.Due(now) then [] else
           [Sent(w.channel, BROADCAST, Beacon(w.radio.masterMac, !w.beat.sent), oracle(|w.radio.calls|).sendError, now)]
  {
    var v := w.HeartbeatPhase(oracle, now);
    var beacon :=
      Sent(w.channel, BROADCAST, Beacon(w.radio.masterMac, !w.beat.sent), oracle(|w.radio.calls|).sendError, now);
    if w.beat.Due(now) {
      assert v.radio.calls == w.radio.calls + [beacon];
      assert NewCalls(w, v) == [beacon] && Front([beacon]) == [];
    } else {
      assert NewCalls(w, v) == [];
    }
  }

  lemma SkipNoteFrame(w: World, skipped: Byte, now: Time)
    ensures var v := w.SkipNote(skipped, now);
      v.radio == w.radio && v.tracker == w.tracker && v.wanted == w.wanted && v.channel == w.channel
  {
  }

  /** The calls of a poll phase: one poll; its reply is what the tracker then takes in. */
  lemma PollFrame(w: World, oracle: Oracle, now: Time)
    ensures var v, result := w.PollPhase(oracle, now), oracle(|w.radio.calls|).poll;
      && Frame(w, v)
      && NewCalls(w, v) == [Polled(result, now)]
      && v.tracker == if result.Ok? then w.tracker.Observed(result.value.devices, now) else w.tracker
  {
    hide World.SkipNote;
    var v, result := w.PollPhase(oracle, now), oracle(|w.radio.calls|).poll;
    var told := w.(radio := w.radio.Poll(oracle, now).0).Recovering(Recovery.Poll(result.Ok?));
    if result.Ok? {
      SkipNoteFrame(told.(snapshot := w.snapshot.(polls := w.snapshot.polls + 1)), result.value.skipped, now);
    }
    assert v.radio.calls == w.radio.calls + [Polled(result, now)];
    assert NewCalls(w, v) == [Polled(result, now)] && Front([Polled(result, now)]) == [];
    assert Extends(w, v);
    assert Commands(NewCalls(w, v)) == [];
    assert v.wanted == w.wanted && v.channel == w.channel;
    assert v.tracker.masterMac == w.tracker.masterMac;
  }

  lemma SweepFrame(w: World, now: Time)
    ensures var v := w.SweepPhase(now).Judge();
      && Frame(w, v) && NewCalls(w, v) == []
      && v.tracker == w.tracker.Swept(now)
      && v.recovery == w.recovery && v.beat == w.beat
      && v.alarm == w.recovery.Lost()
  {
    assert NewCalls(w, w.SweepPhase(now).Judge()) == [];
  }

  /** The state a tick's drive begins in, and the calls made to get there: a beacon if due, then the poll. */
  lemma AtDriveIs(w: World, oracle: Oracle, now: Time)
    requires Unique(w.tracker.groups)
    ensures var ready := w.AtDrive(oracle, now);
      && Frame(w, ready)
      && Unique(ready.tracker.groups)
      && Current(ready.tracker, now)
      && ready.alarm == ready.recovery.Lost()
      && NewCalls(w, ready) != [] && Last(NewCalls(w, ready)).Polled?
      && |NewCalls(w, ready)| == (if w.beat.Due(now) then 2 else 1)
      && forall mac :: ready.tracker.Group(mac).Some? ==> TargetOf(ready.tracker, mac) == TargetOf(w.tracker, mac)
  {
    hide World.HeartbeatPhase, World.PollPhase, World.SweepPhase, World.Judge;
    var begun := w.(snapshot := w.snapshot.(ticks := w.snapshot.ticks + 1));
    assert Extends(w, begun) && NewCalls(w, begun) == [];
    var beaten := begun.HeartbeatPhase(oracle, now);
    var heard := beaten.PollPhase(oracle, now);
    var ready := w.AtDrive(oracle, now);
    HeartbeatFrame(begun, oracle, now);
    PollFrame(beaten, oracle, now);
    SweepFrame(heard, now);
    FrameTwice(w, begun, beaten);
    FrameTwice(w, beaten, heard);
    FrameTwice(w, heard, ready);
    HeardKeepsTargets(w.tracker, heard.tracker, oracle(|beaten.radio.calls|).poll, now);
    SweptIsCurrent(heard.tracker, now);
    forall mac
      ensures Unique(ready.tracker.groups)
      ensures ready.tracker.Group(mac).Some? ==> TargetOf(ready.tracker, mac) == TargetOf(w.tracker, mac)
    {
      HearingKeepsTargets(heard.tracker, Solo.Sweep(now), mac);
      Solo.ApplyIsLocal(heard.tracker, Solo.Sweep(now), mac);
    }
    Solo.ApplyIsLocal(heard.tracker, Solo.Sweep(now), NO_MAC);
  }

  lemma HeardKeepsTargets(t: Tracker, u: Tracker, result: Result<Reply, string>, now: Time)
    requires Unique(t.groups)
    requires u == if result.Ok? then t.Observed(result.value.devices, now) else t
    ensures Unique(u.groups)
    ensures forall mac :: u.Group(mac).Some? ==> TargetOf(u, mac) == TargetOf(t, mac)
  {
    if result.Ok? {
      Solo.ApplyIsLocal(t, Solo.Observe(result.value.devices, now), NO_MAC);
      forall mac ensures u.Group(mac).Some? ==> TargetOf(u, mac) == TargetOf(t, mac) {
        HearingKeepsTargets(t, Solo.Observe(result.value.devices, now), mac);
      }
    }
  }

  // The whole tick.

  /** Where the drive phase leaves a tick. */
  function Driven(w: World, oracle: Oracle, now: Time): World {
    w.AtDrive(oracle, now).DrivePhase(oracle, now)
  }

  /** The calls of a recover phase: one reconnect if an attempt is due. It and what follows leave the groups alone. */
  lemma RestIs(driven: World, oracle: Oracle, now: Time)
    ensures var after := driven.RecoverPhase(oracle, now).FlushChanges(now).FlushFails(now).Publish(now);
      && after.tracker == driven.tracker && after.wanted == driven.wanted
      && Extends(driven, after)
      && NewCalls(driven, after) == (
           if driven.recovery.Attempts(now) then
             [Reconnected(driven.recovery.EveryChannel(), oracle(|driven.radio.calls|).reconnect, now)]
           else [])
      && (driven.alarm == driven.recovery.Lost() ==> after.alarm == after.recovery.Lost())
  {
    var after := driven.RecoverPhase(oracle, now).FlushChanges(now).FlushFails(now).Publish(now);
    RecoverIs(driven, oracle, now);
    assert after.radio == driven.RecoverPhase(oracle, now).radio;
    if driven.recovery.Attempts(now) {
      var call := Reconnected(driven.recovery.EveryChannel(), oracle(|driven.radio.calls|).reconnect, now);
      assert after.radio.calls == driven.radio.calls + [call];
      assert NewCalls(driven, after) == [call];
    } else {
      assert NewCalls(driven, after) == [];
    }
  }

  lemma RecoverIs(w: World, oracle: Oracle, now: Time)
    ensures var v := w.RecoverPhase(oracle, now);
      && v.tracker == w.tracker && v.wanted == w.wanted
      && v.radio.calls == w.radio.calls + (
           if w.recovery.Attempts(now) then
             [Reconnected(w.recovery.EveryChannel(), oracle(|w.radio.calls|).reconnect, now)]
           else [])
      && (w.alarm == w.recovery.Lost() ==> v.alarm == v.recovery.Lost())
  {
    if !w.recovery.Attempts(now) {
      assert w.radio.calls + [] == w.radio.calls;
    }
  }

  lemma DrivenFollows(w: World, oracle: Oracle, now: Time)
    requires Consistent(w, now)
    ensures var ready := w.AtDrive(oracle, now);
      && Sane(ready.tracker)
      && Follows(ready, FanMacs(ready), now, Driven(w, oracle, now))
  {
    var ready := w.AtDrive(oracle, now);
    AtDriveFits(w, oracle, now);
    ConsistentIsSane(ready, now);
    FansAre(ready.tracker);
    DriveAllPlan(ready, FanMacs(ready), oracle, now);
  }

  lemma TickIs(w: World, oracle: Oracle, now: Time)
    ensures w.Tick(oracle, now)
      == Driven(w, oracle, now).RecoverPhase(oracle, now).FlushChanges(now).FlushFails(now).Publish(now)
  {
    hide World.DrivePhase, World.AtDrive, World.RecoverPhase, World.FlushChanges, World.FlushFails, World.Publish;
  }

  /**
    The shape of a tick. Its calls are, in this order: a beacon if one is due, the poll, the
    speed commands planned from the state the drive begins in, and a reconnect if one is due.
   */
  lemma TickShape(w: World, oracle: Oracle, now: Time)
    requires Consistent(w, now)
    ensures var ready, driven, after := w.AtDrive(oracle, now), Driven(w, oracle, now), w.Tick(oracle, now);
      && after.radio.calls
         == w.radio.calls + NewCalls(w, ready) + NewCalls(ready, driven) + NewCalls(driven, after)
      && Frame(w, ready)
      && |NewCalls(w, ready)| == (if w.beat.Due(now) then 2 else 1) && Last(NewCalls(w, ready)).Polled?
      && (forall call :: call in NewCalls(ready, driven) ==> IsSpeed(call))
      && Commands(NewCalls(ready, driven)) == Plan(ready, FanMacs(ready), now)
      && |NewCalls(driven, after)| == (if ready.recovery.Attempts(now) then 1 else 0)
      && (forall call :: call in NewCalls(driven, after) ==> call.Reconnected?)
  {
    hide World.DrivePhase, World.AtDrive, World.RecoverPhase, World.FlushChanges, World.FlushFails, World.Publish;
    hide World.Tick, PartsFit, LogsFit, Driven, Plan, Commands, Settled;
    ConsistentIsSane(w, now);
    AtDriveIs(w, oracle, now);
    DrivenFollows(w, oracle, now);
    RestIs(Driven(w, oracle, now), oracle, now);
    TickIs(w, oracle, now);
  }
}
