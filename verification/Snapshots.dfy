/** What is published: after a tick every known bound fan group once, after a stop perhaps not. */
module Snapshots {
  import opened Types
  import opened Seqs
  import opened Groups
  import opened Radio
  import opened Engine
  import opened EngineHistory
  import opened Roster
  import opened EngineTick
  import opened TickTheorems
  import opened Shutdown
  import Solo
  import FirstHeard
  import SlotOrder
  import Speed

  /** A group the host is told of. */
  predicate IsFanGroup(t: Tracker, g: Group) {
    g.BoundTo(t.masterMac) && g.HasFans()
  }

  function Offline(t: Tracker, now: Time): seq<Group> {
    Filter(t.groups, (g: Group) => g.BoundTo(t.masterMac) && g.HasFans() && !g.Online(now))
  }

  /** The addresses published: the listed ones first, then the others. */
  function PublishedMacs(t: Tracker, now: Time): seq<Mac> {
    Macs(t.DrivenFans()) + Macs(Offline(t, now))
  }

  /**
    What the host is told of a group: how it is addressed and what it is, its speeds if it is online
    and zeros if not, its duties as last reported, its target, whether that was reported applied in
    the last three seconds, and how often it was sent since.
   */
  ghost predicate Shows(state: GroupState, g: Group, online: bool, now: Time) {
    && state.mac == g.device.mac && state.receiver == g.device.receiver
    && state.fanCount == g.device.fanCount && state.model == g.device.fanTypes[0]
    && state.online == online && state.rpm == (if online then g.device.rpm else [0, 0, 0, 0])
    && state.duty == g.device.duty && state.target == g.target
    && (state.acknowledged <==>
          online && g.target.Some? && Since(now, g.lastSeen) <= 3 * SECOND
          && Speed.Matches(g.device.duty, g.target.value))
    && state.unacknowledged == g.unacknowledged
  }

  /** The groups published: the listed ones first, then the others. */
  function Published(t: Tracker, now: Time): seq<Group> {
    t.DrivenFans() + Offline(t, now)
  }

  lemma PublishShows(w: World, now: Time)
    ensures var states, groups := w.Publish(now).snapshot.groups, Published(w.tracker, now);
      && |states| == |groups|
      && forall i :: 0 <= i < |states| ==> Shows(states[i], groups[i], i < |w.tracker.DrivenFans()|, now)
  {
    var groups := Published(w.tracker, now);
    forall i | 0 <= i < |groups| && groups[i].target.Some?
      ensures groups[i].IsAcknowledged(now) <==>
        Since(now, groups[i].lastSeen) <= 3 * SECOND && Speed.Matches(groups[i].device.duty, groups[i].target.value)
    {
      Speed.AcknowledgedIff(groups[i].device.duty, groups[i].target.value);
    }
  }

  /** Everybody published is known under the address published. */
  lemma PublishedAreGroups(t: Tracker, now: Time, i: nat)
    requires Sane(t) && i < |Published(t, now)|
    ensures t.Group(Published(t, now)[i].Mac()) == Some(Published(t, now)[i])
  {
    FansAre(t);
    OfflineAre(t, now);
    if i < |t.DrivenFans()| {
      assert t.DrivenFans()[i] in t.DrivenFans();
    } else {
      var g := Offline(t, now)[i - |t.DrivenFans()|];
      assert g in Offline(t, now);
      Solo.GetMember(t.groups, g);
    }
  }

  /** After a tick each record shows the group of its address, online exactly if it was heard in the last 15 seconds. */
  lemma TickShows(w: World, oracle: Oracle, now: Time, i: nat)
    requires Consistent(w, now) && i < |w.Tick(oracle, now).snapshot.groups|
    ensures var states, t := w.Tick(oracle, now).snapshot.groups, w.Tick(oracle, now).tracker;
      var group := t.Group(states[i].mac);
      group.Some? && Shows(states[i], group.value, Since(now, group.value.lastSeen) <= 15 * SECOND, now)
  {
    hide World.AtDrive, PartsFit, LogsFit, World.DrivePhase, World.RecoverPhase, World.FlushChanges, World.FlushFails;
    hide Shows;
    TickSettles(w, oracle, now);
    TickIs(w, oracle, now);
    var last := Driven(w, oracle, now).RecoverPhase(oracle, now).FlushChanges(now).FlushFails(now);
    PublishShows(last, now);
    var t := last.tracker;
    PublishedAreGroups(t, now, i);
    OnlineAsHeard(t, now, i);
    MacShown(last.Publish(now).snapshot.groups[i], Published(t, now)[i], i < |t.DrivenFans()|, now);
  }

  lemma MacShown(state: GroupState, g: Group, online: bool, now: Time)
    requires Shows(state, g, online, now)
    ensures state.mac == g.Mac() && state.online == online
  {
  }

  /** After a stop too, but all that are still listed are shown online. */
  lemma StopShows(w: World, oracle: Oracle, now: Time, i: nat)
    requires Consistent(w, now) && i < |w.Shutdown(oracle, now).snapshot.groups|
    ensures var states, t := w.Shutdown(oracle, now).snapshot.groups, w.Shutdown(oracle, now).tracker;
      var group := t.Group(states[i].mac);
      && group.Some? && Shows(states[i], group.value, i < |t.DrivenFans()|, now)
      && (i < |t.DrivenFans()| <==> i < |FanMacs(w)|)
  {
    hide PartsFit, LogsFit, World.LastSends, Shows;
    ShutdownIs(w, oracle, now);
    ShutdownFits(w, oracle, now);
    ConsistentIsSane(w.Shutdown(oracle, now), now);
    var last := w.LastSends(FanMacs(w), oracle, now).Say([Stopping]);
    PublishShows(last, now);
    PublishedAreGroups(last.tracker, now, i);
    MacShown(last.Publish(now).snapshot.groups[i], Published(last.tracker, now)[i],
             i < |last.tracker.DrivenFans()|, now);
    SameFans(w.tracker, last.tracker);
  }

  lemma PublishIs(w: World, now: Time)
    ensures var groups := w.Publish(now).snapshot.groups;
      && |groups| == |PublishedMacs(w.tracker, now)|
      && (forall i :: 0 <= i < |groups| ==> groups[i].mac == PublishedMacs(w.tracker, now)[i])
      && (forall i :: 0 <= i < |groups| ==> (groups[i].online <==> i < |w.tracker.DrivenFans()|))
  {
  }

  lemma OfflineAre(t: Tracker, now: Time)
    requires Sane(t)
    ensures Distinct(Macs(Offline(t, now)))
    ensures forall g :: g in Offline(t, now) <==> g in t.groups && IsFanGroup(t, g) && !g.Online(now)
  {
    UniqueFilter(t, now);
    FilterMembers(t.groups, (g: Group) => g.BoundTo(t.masterMac) && g.HasFans() && !g.Online(now));
  }

  lemma UniqueFilter(t: Tracker, now: Time)
    requires Sane(t)
    ensures Unique(Offline(t, now))
  {
    Solo.UniqueFilter(t.groups, (g: Group) => g.BoundTo(t.masterMac) && g.HasFans() && !g.Online(now));
  }

  /** Every fan group known is published, and nothing else is. */
  lemma PublishedAreKnown(t: Tracker, now: Time, mac: Mac)
    requires Sane(t) && forall m :: t.Hears(m, now) ==> m in t.order
    ensures mac in PublishedMacs(t, now) <==> t.Group(mac).Some? && IsFanGroup(t, t.Group(mac).value)
  {
    var fans, offline := t.DrivenFans(), Offline(t, now);
    FansAre(t);
    OfflineAre(t, now);
    SlotOrder.MacsOf(fans, mac);
    SlotOrder.MacsOf(offline, mac);
    Solo.GetIn(t.groups, mac);
    if t.Group(mac).Some? {
      var g := t.Group(mac).value;
      assert g in fans <==> mac in t.order && IsFanGroup(t, g);
      assert g in offline <==> IsFanGroup(t, g) && !g.Online(now);
    }
    if g :| g in offline && g.Mac() == mac {
      Solo.GetMember(t.groups, g);
    }
  }

  lemma OnceIfOnline(t: Tracker, now: Time)
    requires Sane(t) && forall g :: g in t.DrivenFans() ==> g.Online(now)
    ensures Distinct(PublishedMacs(t, now))
  {
    var fans, offline := t.DrivenFans(), Offline(t, now);
    FansAre(t);
    OfflineAre(t, now);
    forall i, j | 0 <= i < |fans| && 0 <= j < |offline| ensures Macs(fans)[i] != Macs(offline)[j] {
      assert fans[i] in fans && offline[j] in offline;
      Solo.GetMember(t.groups, offline[j]);
    }
  }

  lemma TwiceIfOffline(t: Tracker, now: Time, g: Group)
    requires Sane(t) && g in t.DrivenFans() && !g.Online(now)
    ensures !Distinct(PublishedMacs(t, now))
  {
    var fans, offline := t.DrivenFans(), Offline(t, now);
    FansAre(t);
    OfflineAre(t, now);
    Solo.GetIn(t.groups, g.Mac());
    assert g in offline;
    var i := Find(fans, g);
    var j := Find(offline, g);
    assert PublishedMacs(t, now)[i] == PublishedMacs(t, now)[|fans| + j];
  }

  /** Nobody is published twice, exactly when every listed fan group is still online. */
  lemma PublishedOnceIff(t: Tracker, now: Time)
    requires Sane(t)
    ensures Distinct(PublishedMacs(t, now)) <==> forall g :: g in t.DrivenFans() ==> g.Online(now)
  {
    if forall g :: g in t.DrivenFans() ==> g.Online(now) {
      OnceIfOnline(t, now);
    } else {
      var g :| g in t.DrivenFans() && !g.Online(now);
      TwiceIfOffline(t, now, g);
    }
  }

  /**
    After every tick the snapshot lists each known bound fan group exactly once: first those heard
    within 15 seconds, in slot order, then the rest, in the order they were first heard; each is
    marked online exactly if it was heard within 15 seconds of the tick.
   */
  lemma TickPublishes(w: World, oracle: Oracle, now: Time)
    requires Consistent(w, now)
    ensures var after := w.Tick(oracle, now);
      var groups, t := after.snapshot.groups, after.tracker;
      && (forall i, j :: 0 <= i < j < |groups| ==> groups[i].mac != groups[j].mac)
      && (forall mac :: (exists i :: 0 <= i < |groups| && groups[i].mac == mac)
            <==> t.Group(mac).Some? && IsFanGroup(t, t.Group(mac).value))
      && (forall i :: 0 <= i < |groups| ==> (groups[i].online <==> t.Hears(groups[i].mac, now)))
      && |groups| == |PublishedMacs(t, now)|
      && (forall i :: 0 <= i < |groups| ==> groups[i].mac == PublishedMacs(t, now)[i])
      && (forall i, j :: |t.DrivenFans()| <= i < j < |groups| ==>
            FirstHeard.HeardBefore(t.masterMac, after.past.tracker, groups[i].mac, groups[j].mac))
  {
    hide World.AtDrive, PartsFit, LogsFit, World.DrivePhase, World.RecoverPhase, World.FlushChanges, World.FlushFails;
    TickSettles(w, oracle, now);
    var last := Driven(w, oracle, now).RecoverPhase(oracle, now).FlushChanges(now).FlushFails(now);
    TickIs(w, oracle, now);
    PublishIs(last, now);
    var after, t := w.Tick(oracle, now), last.tracker;
    TickFits(w, oracle, now);
    OfflineInOrder(after, now);
    assert after.tracker == t && after.snapshot.groups == last.Publish(now).snapshot.groups;
    FansAre(t);
    OfflineAre(t, now);
    PublishedOnceIff(t, now);
    forall i | 0 <= i < |after.snapshot.groups|
      ensures after.snapshot.groups[i].online <==> t.Hears(after.snapshot.groups[i].mac, now)
    {
      OnlineAsHeard(t, now, i);
    }
    forall mac
      ensures (exists i :: 0 <= i < |after.snapshot.groups| && after.snapshot.groups[i].mac == mac)
        <==> t.Group(mac).Some? && IsFanGroup(t, t.Group(mac).value)
    {
      PublishedAreKnown(t, now, mac);
      if mac in PublishedMacs(t, now) {
        var i := Find(PublishedMacs(t, now), mac);
        assert after.snapshot.groups[i].mac == mac;
      }
    }
  }

  /** The offline fan groups are in the order they were first heard. */
  lemma OfflineInOrder(w: World, now: Time)
    requires Consistent(w, now)
    ensures FirstHeard.InOrder(w.tracker.masterMac, w.past.tracker, Offline(w.tracker, now))
  {
    FirstHeard.PickedInOrder(w.tracker.masterMac, w.past.tracker,
      (g: Group) => g.BoundTo(w.tracker.masterMac) && g.HasFans() && !g.Online(now));
  }

  lemma OnlineAsHeard(t: Tracker, now: Time, i: nat)
    requires Sane(t) && Current(t, now) && i < |PublishedMacs(t, now)|
    ensures t.Hears(PublishedMacs(t, now)[i], now) <==> i < |t.DrivenFans()|
  {
    hide Tracker.DrivenFans, Offline, Sane;
    PublishedAreGroups(t, now, i);
    if i < |t.DrivenFans()| {
      ListedIsOnline(t, now, i);
    } else {
      OfflineIsNot(t, now, i - |t.DrivenFans()|);
    }
  }

  lemma ListedIsOnline(t: Tracker, now: Time, i: nat)
    requires Sane(t) && Current(t, now) && i < |t.DrivenFans()|
    ensures t.DrivenFans()[i].Online(now)
  {
    FansAre(t);
    var g := t.DrivenFans()[i];
    assert g in t.DrivenFans();
    assert t.Hears(g.Mac(), now);
  }

  lemma OfflineIsNot(t: Tracker, now: Time, i: nat)
    requires Sane(t) && i < |Offline(t, now)|
    ensures !Offline(t, now)[i].Online(now)
  {
    OfflineAre(t, now);
    assert Offline(t, now)[i] in Offline(t, now);
  }

  /**
    A stop publishes without sweeping first. It lists nobody twice exactly when every fan group of
    the slot order has been heard within 15 seconds of the stop.
   */
  lemma ShutdownPublishesOnceIff(w: World, oracle: Oracle, now: Time)
    requires Consistent(w, now)
    ensures var groups := w.Shutdown(oracle, now).snapshot.groups;
      (forall i, j :: 0 <= i < j < |groups| ==> groups[i].mac != groups[j].mac)
      <==> forall g :: g in w.tracker.DrivenFans() ==> g.Online(now)
  {
    hide PartsFit, LogsFit, World.LastSends;
    ConsistentIsSane(w, now);
    ShutdownIs(w, oracle, now);
    ShutdownFits(w, oracle, now);
    var v := w.Shutdown(oracle, now);
    ConsistentIsSane(v, now);
    PublishIs(w.LastSends(FanMacs(w), oracle, now).Say([Stopping]), now);
    PublishedOnceIff(v.tracker, now);
    var groups := v.snapshot.groups;
    assert Distinct(PublishedMacs(v.tracker, now)) <==>
      forall i, j :: 0 <= i < j < |groups| ==> groups[i].mac != groups[j].mac;
    FansStayOnline(w, oracle, now);
  }

  /** A last send does not change who is listed nor when anyone was heard. */
  lemma FansStayOnline(w: World, oracle: Oracle, now: Time)
    requires Consistent(w, now)
    ensures var v := w.Shutdown(oracle, now);
      (forall g :: g in v.tracker.DrivenFans() ==> g.Online(now))
      <==> (forall g :: g in w.tracker.DrivenFans() ==> g.Online(now))
  {
    hide PartsFit, LogsFit;
    var v := w.Shutdown(oracle, now);
    ConsistentIsSane(w, now);
    ShutdownFits(w, oracle, now);
    ConsistentIsSane(v, now);
    ShutdownIs(w, oracle, now);
    SameFans(w.tracker, v.tracker);
    FansAre(w.tracker);
    FansAre(v.tracker);
    hide World.Shutdown;
    forall mac ensures w.tracker.Hears(mac, now) <==> v.tracker.Hears(mac, now) {
      assert HeardAt(w.tracker, mac) == HeardAt(v.tracker, mac);
    }
    OnlineByMac(w.tracker, now);
    OnlineByMac(v.tracker, now);
  }

  lemma OnlineByMac(t: Tracker, now: Time)
    requires Sane(t)
    ensures (forall g :: g in t.DrivenFans() ==> g.Online(now))
      <==> (forall mac :: mac in Macs(t.DrivenFans()) ==> t.Hears(mac, now))
  {
    FansAre(t);
    forall mac | mac in Macs(t.DrivenFans()) ensures t.Group(mac).Some? && t.Group(mac).value in t.DrivenFans() {
      FanMac(t, mac);
    }
    forall g | g in t.DrivenFans() ensures g.Mac() in Macs(t.DrivenFans()) {
      SlotOrder.MacsOf(t.DrivenFans(), g.Mac());
    }
  }
}
