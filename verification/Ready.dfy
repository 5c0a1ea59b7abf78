/** What the drive of a tick finds, and when the tick sends and reconnects, told by the poll's answer. */
module Ready {
  import opened Types
  import opened Groups
  import opened Radio
  import opened Engine
  import opened EngineHistory
  import opened Drive
  import opened Roster
  import opened EngineTick
  import opened TickTheorems
  import Solo
  import Unacknowledged
  import History
  import Speed
  import Recovery
  import EngineTrace

  /** Where the poll of a tick is in the sequence of calls. */
  function PollCall(w: World, now: Time): nat {
    |w.radio.calls| + if w.beat.Due(now) then 1 else 0
  }

  /** What a tick's poll is answered. */
  function Answered(w: World, oracle: Oracle, now: Time): Result<Reply, string> {
    oracle(PollCall(w, now)).poll
  }

  lemma SkipKeepsRecovery(w: World, skipped: Byte, now: Time)
    ensures w.SkipNote(skipped, now).recovery == w.recovery
  {
  }

  lemma PollRecovery(begun: World, beaten: World, oracle: Oracle, now: Time)
    requires beaten == begun.HeartbeatPhase(oracle, now)
    ensures beaten.PollPhase(oracle, now).recovery
      == begun.recovery.PolledOnce(oracle(|beaten.radio.calls|).poll.Ok?)
  {
    hide World.SkipNote;
    var (after, result) := beaten.radio.Poll(oracle, now);
    var told := beaten.(radio := after).Recovering(Recovery.Poll(result.Ok?));
    if result.Ok? {
      var counted := told.(snapshot := beaten.snapshot.(polls := beaten.snapshot.polls + 1));
      SkipKeepsRecovery(counted, result.value.skipped, now);
    }
  }

  /** The tracker, the recovery and the alarm that a tick's drive finds. */
  lemma ReadyIs(w: World, oracle: Oracle, now: Time)
    ensures var ready, result := w.AtDrive(oracle, now), Answered(w, oracle, now);
      && ready.tracker == (if result.Ok? then w.tracker.Observed(result.value.devices, now) else w.tracker).Swept(now)
      && ready.recovery == w.recovery.PolledOnce(result.Ok?)
      && ready.alarm == ready.recovery.Lost()
  {
    hide World.HeartbeatPhase, World.PollPhase, World.SweepPhase, World.Judge, Tracker.Observed, Tracker.Swept;
    var begun := w.(snapshot := w.snapshot.(ticks := w.snapshot.ticks + 1));
    HeartbeatFrame(begun, oracle, now);
    var beaten := begun.HeartbeatPhase(oracle, now);
    PollFrame(beaten, oracle, now);
    SweepFrame(beaten.PollPhase(oracle, now), now);
    PollRecovery(begun, beaten, oracle, now);
  }

  // One group.

  /** A group as the poll leaves it. */
  function SeenAt(w: World, oracle: Oracle, now: Time, mac: Mac): Option<Group> {
    var result := Answered(w, oracle, now);
    if result.Ok? then Solo.SeeOne(w.tracker.Group(mac), result.value.devices, mac, now) else w.tracker.Group(mac)
  }

  lemma MasterIsKept(t: Tracker, devices: seq<Device>, now: Time)
    ensures t.Observed(devices, now).masterMac == t.masterMac == t.Swept(now).masterMac
  {
  }

  /** The drive finds it so, unless the sweep forgets it. */
  lemma ReadyGroup(w: World, oracle: Oracle, now: Time, mac: Mac)
    requires Consistent(w, now)
    ensures var seen := SeenAt(w, oracle, now, mac);
      w.AtDrive(oracle, now).tracker.Group(mac)
        == if seen.Some? && seen.value.Kept(w.tracker.masterMac, now) then seen else None
  {
    hide World.AtDrive, PartsFit, LogsFit, Tracker.Observed, Tracker.Swept;
    var result := Answered(w, oracle, now);
    ConsistentIsSane(w, now);
    ReadyIs(w, oracle, now);
    if result.Ok? {
      MasterIsKept(w.tracker, result.value.devices, now);
      Solo.ApplyIsLocal(w.tracker, Solo.Observe(result.value.devices, now), mac);
      Solo.ApplyIsLocal(w.tracker.Observed(result.value.devices, now), Solo.Sweep(now), mac);
    } else {
      Solo.ApplyIsLocal(w.tracker, Solo.Sweep(now), mac);
    }
  }

  /** A group known after the poll and still heard is there after the tick, as it was last seen. */
  lemma HeardGroup(w: World, oracle: Oracle, now: Time, mac: Mac)
    requires Consistent(w, now)
    ensures var seen, after := SeenAt(w, oracle, now, mac), w.Tick(oracle, now).tracker;
      && (seen.None? ==> after.Group(mac).None?)
      && (seen.Some? && seen.value.Online(now) ==>
            && after.Group(mac).Some?
            && after.Group(mac).value.device == seen.value.device
            && after.Group(mac).value.lastSeen == seen.value.lastSeen
            && mac in after.order)
  {
    hide World.Tick, World.AtDrive, PartsFit, LogsFit, Settled, SeenAt;
    var ready, after := w.AtDrive(oracle, now), w.Tick(oracle, now).tracker;
    ReadyGroup(w, oracle, now, mac);
    TickSettles(w, oracle, now);
    if mac in FanMacs(ready) {
      FanMac(ready.tracker, mac);
      SettledIsSeen(ready, mac, now, after.Group(mac));
    }
  }

  lemma SettledIsSeen(ready: World, mac: Mac, now: Time, after: Option<Group>)
    requires Settled(ready, mac, now, after) && ready.tracker.Group(mac).Some?
    ensures after.Some? && after.value.device == ready.tracker.Group(mac).value.device
    ensures after.value.lastSeen == ready.tracker.Group(mac).value.lastSeen
  {
  }

  // When a tick sends.

  /** No group was last sent to later than the latest instant of the history. */
  lemma {:induction false} SentInThePast(master: Mac, ops: seq<Solo.Op>, mac: Mac)
    requires History.Timed(ops)
    ensures var group := Solo.RunOne(master, ops, mac);
      group.Some? && group.value.lastSent.Some? ==> group.value.lastSent.value <= History.Latest(ops)
  {
    if ops != [] {
      SentInThePast(master, Front(ops), mac);
      if Last(ops).Observe? {
        Unacknowledged.SeeingCounts(Solo.RunOne(master, Front(ops), mac), Last(ops).devices, mac, Last(ops).at);
      }
    }
  }

  lemma SentBefore(w: World, before: Time, mac: Mac)
    requires Consistent(w, before)
    ensures var group := w.tracker.Group(mac);
      group.Some? && group.value.lastSent.Some? ==> group.value.lastSent.value <= before
  {
    SentInThePast(w.tracker.masterMac, w.past.tracker, mac);
    Solo.RunIsLocal(w.tracker.masterMac, w.past.tracker, mac);
  }

  /** When the drive finds a group, it was last sent to when it was before the tick, or never. */
  lemma ReadySent(w: World, oracle: Oracle, now: Time, mac: Mac)
    requires Consistent(w, now) && w.AtDrive(oracle, now).tracker.Group(mac).Some?
    ensures var last := w.AtDrive(oracle, now).tracker.Group(mac).value.lastSent;
      last.Some? ==> w.tracker.Group(mac).Some? && last == w.tracker.Group(mac).value.lastSent
  {
    hide World.AtDrive, PartsFit, LogsFit;
    ReadyGroup(w, oracle, now, mac);
    var result := Answered(w, oracle, now);
    if result.Ok? {
      Unacknowledged.SeeingCounts(w.tracker.Group(mac), result.value.devices, mac, now);
    }
  }

  /**
    The keepalive. A tick a second or more after the latest step sends to exactly the groups it
    drives that are wanted, or all it drives under the alarm: with a tick a second, that is every tick.
   */
  lemma EveryTickSends(w: World, oracle: Oracle, before: Time, now: Time, mac: Mac)
    requires Consistent(w, before) && before + SECOND <= now
    ensures var ready := w.AtDrive(oracle, now);
      (exists command :: command in TickCommands(w, oracle, now) && command.mac == mac)
      <==> mac in FanMacs(ready) && (ready.alarm || mac in w.wanted)
  {
    hide World.Tick, World.AtDrive, PartsFit, LogsFit, Speed.Prepared, Speed.Uniform, Group.Due, TickCommands;
    var ready := w.AtDrive(oracle, now);
    LaterFits(w, before, now);
    TickSettles(w, oracle, now);
    SentIff(w, oracle, now, mac);
    if mac in FanMacs(ready) && (ready.alarm || mac in w.wanted) {
      FanMac(ready.tracker, mac);
      ReadySent(w, oracle, now, mac);
      SentBefore(w, before, mac);
      DueAgain(ready, mac, now);
    }
  }

  lemma DueAgain(ready: World, mac: Mac, now: Time)
    requires ready.PercentFor(mac).Some? && ready.tracker.Group(mac).Some?
    requires var last := ready.tracker.Group(mac).value.lastSent; last.Some? ==> last.value + SECOND <= now
    ensures Planned(ready, mac, now)
  {
    hide Speed.Prepared, Speed.Uniform, Speed.Acknowledged;
  }

  // When a tick reconnects.

  lemma RecoverLeaves(w: World, oracle: Oracle, now: Time)
    ensures w.RecoverPhase(oracle, now).FlushChanges(now).FlushFails(now).Publish(now).recovery
      == w.recovery.Recovered(oracle(|w.radio.calls|).reconnect.Ok?, now)
  {
  }

  /** Where a tick leaves the recovery. */
  lemma TickRecovers(w: World, oracle: Oracle, now: Time) returns (ok: bool)
    requires Consistent(w, now)
    ensures exists n :: n >= |w.radio.calls| && ok == oracle(n).reconnect.Ok?
    ensures w.Tick(oracle, now).recovery
      == w.recovery.PolledOnce(Answered(w, oracle, now).Ok?).Recovered(ok, now)
  {
    hide World.Tick, World.AtDrive, PartsFit, LogsFit, Driven, Plan, Settled, Recovery.State.Recovered;
    var driven := Driven(w, oracle, now);
    ReadyIs(w, oracle, now);
    DrivenFollows(w, oracle, now);
    TickIs(w, oracle, now);
    RecoverLeaves(driven, oracle, now);
    TickShape(w, oracle, now);
    DrivenIsLater(w, oracle, now);
    ok := oracle(|driven.radio.calls|).reconnect.Ok?;
  }

  lemma DrivenIsLater(w: World, oracle: Oracle, now: Time)
    requires Consistent(w, now)
    ensures |Driven(w, oracle, now).radio.calls| >= |w.radio.calls|
  {
    hide World.AtDrive, PartsFit, LogsFit, Driven, Plan, Settled;
    ConsistentIsSane(w, now);
    AtDriveIs(w, oracle, now);
    DrivenFollows(w, oracle, now);
  }

  /** What the acts of the recovery say of an attempt at this instant. */
  predicate AttemptDue(acts: seq<Recovery.Act>, now: Time) {
    var streak := Recovery.Streak(acts);
    && Recovery.FailedPolls(acts) >= 3
    && (streak == [] || (Last(streak).Attempt? && now >= Last(streak).at + Recovery.WaitAfter(|streak| - 1)))
  }

  lemma AttemptsIff(s: Recovery.State, now: Time)
    requires Recovery.Fits(s)
    ensures s.Attempts(now) <==> AttemptDue(s.acts, now)
  {
  }

  /**
    A tick reconnects exactly if, counting its own poll, three polls or more have failed since the
    last success, and the wait after the last failed attempt since then, if there was one, is over.
   */
  lemma ReconnectsIff(w: World, oracle: Oracle, now: Time)
    requires Consistent(w, now) && EngineTrace.Agrees(w)
    ensures var acts := EngineTrace.Trials(w.radio.calls) + [Recovery.Polled(Answered(w, oracle, now).Ok?)];
      (exists call :: call in NewCalls(w, w.Tick(oracle, now)) && call.Reconnected?) <==> AttemptDue(acts, now)
  {
    hide World.Tick, World.AtDrive, PartsFit, LogsFit, Driven, Plan, Commands, NewCalls, AttemptDue;
    var ready, driven, after := w.AtDrive(oracle, now), Driven(w, oracle, now), w.Tick(oracle, now);
    ReadyIs(w, oracle, now);
    AtDriveFits(w, oracle, now);
    RecoveryHolds(ready, now);
    AttemptsIff(ready.recovery, now);
    TickShape(w, oracle, now);
    ThreeStretches(w, after, NewCalls(w, ready), NewCalls(ready, driven), NewCalls(driven, after));
    ReconnectAmong(NewCalls(w, ready), NewCalls(ready, driven), NewCalls(driven, after));
  }

  lemma ReconnectAmong(a: seq<Call>, b: seq<Call>, c: seq<Call>)
    requires (forall call :: call in a ==> !call.Reconnected?) && (forall call :: call in b ==> IsSpeed(call))
    requires forall call :: call in c ==> call.Reconnected?
    ensures (exists call :: call in a + b + c && call.Reconnected?) <==> c != []
  {
    if c != [] {
      assert c[0] in a + b + c;
    }
  }
}
