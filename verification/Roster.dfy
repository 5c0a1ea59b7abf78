/** The tracker's lists as reached by a run: who is listed is known, once, and the slots that follow. */
module Roster {
  import opened Types
  import opened Seqs
  import opened Groups
  import opened Solo
  import opened History
  import opened SlotOrder
  import Speed

  /** What every reachable tracker satisfies. */
  ghost predicate Sane(t: Tracker) {
    && Unique(t.groups)
    && Distinct(t.order)
    && forall mac :: mac in t.order ==> t.Group(mac).Some?
  }

  /** The order holds exactly the devices heard within the last 15 seconds. */
  ghost predicate Current(t: Tracker, now: Time) {
    forall mac :: mac in t.order <==> t.Hears(mac, now)
  }

  lemma {:induction false} ListedIsKnown(master: Mac, ops: seq<Op>, mac: Mac)
    requires Timed(ops) && Listed(ops, mac)
    ensures Run(master, ops).Group(mac).Some?
  {
    if Rebuilds(Last(ops)) {
      HeardIsKnown(master, ops, mac);
    } else {
      ListedIsKnown(master, Front(ops), mac);
      RunIsLocal(master, Front(ops), mac);
      ApplyIsLocal(Run(master, Front(ops)), Last(ops), mac);
    }
  }

  lemma RunIsSane(master: Mac, ops: seq<Op>)
    requires Timed(ops)
    ensures Sane(Run(master, ops))
  {
    RunIsLocal(master, ops, master);
    RunOrdered(master, ops);
    OneOrderFits(Run(master, ops).order, Run(master, ops).order, ops);
    forall mac | mac in Run(master, ops).order ensures Run(master, ops).Group(mac).Some? {
      ListedIsKnown(master, ops, mac);
    }
  }

  lemma SweptIsCurrent(t: Tracker, now: Time)
    requires Unique(t.groups)
    ensures Current(t.Swept(now), now)
  {
    var remembered := t.(groups := t.Remembered(now));
    UniqueFilter(t.groups, (g: Group) => g.Kept(t.masterMac, now));
    RebuiltOrder(remembered, now);
    assert forall mac :: t.Swept(now).Hears(mac, now) <==> remembered.Hears(mac, now);
  }

  /** The listing of known addresses is address by address. */
  lemma {:induction false} ListingIs(groups: seq<Group>, macs: seq<Mac>)
    requires forall mac :: mac in macs ==> Get(groups, mac).Some?
    ensures |Listing(groups, macs)| == |macs|
    ensures forall i :: 0 <= i < |macs| ==> Get(groups, macs[i]) == Some(Listing(groups, macs)[i])
  {
    if macs != [] {
      assert macs == Front(macs) + [Last(macs)];
      ListingIs(groups, Front(macs));
    }
  }

  lemma ListedMacs(t: Tracker)
    requires Sane(t)
    ensures Macs(t.Listed()) == t.order
    ensures forall i :: 0 <= i < |t.order| ==> t.Group(t.order[i]) == Some(t.Listed()[i])
  {
    ListingIs(t.groups, t.order);
    forall i | 0 <= i < |t.order| ensures t.Listed()[i].Mac() == t.order[i] {
      GetIn(t.groups, t.order[i]);
    }
  }

  /** The driven fans are the listed, bound fan groups, each once. */
  lemma FansAre(t: Tracker)
    requires Sane(t)
    ensures Distinct(Macs(t.DrivenFans()))
    ensures forall g :: g in t.DrivenFans() <==>
      && g.Mac() in t.order && t.Group(g.Mac()) == Some(g)
      && g.device.masterMac == t.masterMac && g.device.deviceType == 0 && g.device.fanCount > 0
  {
    var fan := (g: Group) => g.BoundTo(t.masterMac) && g.HasFans();
    ListedMacs(t);
    FilterMembers(t.Listed(), fan);
    forall i, j | 0 <= i < j < |t.DrivenFans()| ensures t.DrivenFans()[i].Mac() != t.DrivenFans()[j].Mac() {
      var from, to := FilterEmbeds(t.Listed(), fan, i, j);
      assert Macs(t.Listed())[from] != Macs(t.Listed())[to];
    }
    forall g: Group | g.Mac() in t.order && t.Group(g.Mac()) == Some(g) ensures g in t.Listed() {
      var i := Find(t.order, g.Mac());
    }
    forall g | g in t.Listed() ensures g.Mac() in t.order && t.Group(g.Mac()) == Some(g) {
      var i := Find(t.Listed(), g);
      assert Macs(t.Listed())[i] == g.Mac();
    }
  }

  lemma FanMac(t: Tracker, mac: Mac)
    requires Sane(t) && mac in Macs(t.DrivenFans())
    ensures t.Group(mac).Some? && t.Group(mac).value in t.DrivenFans()
    ensures t.Group(mac).value.Mac() == mac
  {
    MacsOf(t.DrivenFans(), mac);
    FansAre(t);
  }

  /** The devices that take slots: online and bound to the dongle, in order. */
  function Slotted(t: Tracker): seq<Device> {
    Speed.Bound(Devices(t.Listed()), t.masterMac)
  }

  lemma SlottedDistinct(t: Tracker)
    requires Sane(t)
    ensures forall i, j :: 0 <= i < j < |Slotted(t)| ==> Slotted(t)[i].mac != Slotted(t)[j].mac
  {
    ListedMacs(t);
    forall i, j | 0 <= i < j < |Slotted(t)| ensures Slotted(t)[i].mac != Slotted(t)[j].mac {
      var from, to := FilterEmbeds(Devices(t.Listed()), Speed.BoundTo(t.masterMac), i, j);
      assert Macs(t.Listed())[from] != Macs(t.Listed())[to];
    }
  }

  /**
    The `i`-th of the online bound devices has slot `i + 1`: with at most 255 of them the slots
    are a bijection onto 1 to their number, in order. Past that the byte wraps.
   */
  lemma SlotsInOrder(t: Tracker, i: nat)
    requires Sane(t) && i < |Slotted(t)|
    ensures t.SlotOf(Slotted(t)[i].mac) == (i + 1) % 256
    ensures |Slotted(t)| <= 255 ==> t.SlotOf(Slotted(t)[i].mac) == i + 1
  {
    SlottedDistinct(t);
    var index := Speed.Position(Slotted(t), Slotted(t)[i].mac);
    assert !(index < i) && !(i < index);
  }

  /** No two online bound devices share a slot, exactly when there are at most 256 of them. */
  lemma SlotsDistinctIff(t: Tracker)
    requires Sane(t)
    ensures |Slotted(t)| <= 256 <==>
      forall i, j :: 0 <= i < j < |Slotted(t)| ==> t.SlotOf(Slotted(t)[i].mac) != t.SlotOf(Slotted(t)[j].mac)
  {
    hide Slotted, Tracker.SlotOf, Sane;
    forall i, j | 0 <= i < j < |Slotted(t)| && |Slotted(t)| <= 256
      ensures t.SlotOf(Slotted(t)[i].mac) != t.SlotOf(Slotted(t)[j].mac)
    {
      SlotsInOrder(t, i);
      SlotsInOrder(t, j);
    }
    if |Slotted(t)| > 256 {
      SlotsInOrder(t, 0);
      SlotsInOrder(t, 256);
      assert t.SlotOf(Slotted(t)[0].mac) == t.SlotOf(Slotted(t)[256].mac);
    }
  }

  lemma {:induction false} BoundKeepsOrder(devices: seq<Device>, master: Mac, from: nat, to: nat)
    returns (i: nat, j: nat)
    requires from < to < |devices| && devices[from].masterMac == master == devices[to].masterMac
    ensures i < j < |Speed.Bound(devices, master)|
    ensures Speed.Bound(devices, master)[i] == devices[from] && Speed.Bound(devices, master)[j] == devices[to]
  {
    var front := Speed.Bound(Front(devices), master);
    if to < |devices| - 1 {
      i, j := BoundKeepsOrder(Front(devices), master, from, to);
    } else {
      FilterMembers(Front(devices), Speed.BoundTo(master));
      assert Front(devices)[from] in Front(devices);
      i := Find(front, devices[from]);
      j := |front|;
    }
  }

  /** Whoever comes first in the order has the lower slot, if both are bound and slots do not wrap. */
  lemma EarlierHasLowerSlot(t: Tracker, a: Mac, b: Mac)
    requires Sane(t) && |Slotted(t)| <= 255 && ComesBefore(t.order, a, b)
    requires t.Group(a).Some? && t.Group(a).value.BoundTo(t.masterMac)
    requires t.Group(b).Some? && t.Group(b).value.BoundTo(t.masterMac)
    ensures 1 <= t.SlotOf(a) < t.SlotOf(b)
  {
    ListedMacs(t);
    var from, to :| 0 <= from < to < |t.order| && t.order[from] == a && t.order[to] == b;
    assert Macs(t.Listed())[from] == a && Macs(t.Listed())[to] == b;
    var i, j := BoundKeepsOrder(Devices(t.Listed()), t.masterMac, from, to);
    SlotsInOrder(t, i);
    SlotsInOrder(t, j);
  }

  /** Two devices that stay online keep the order of their slots, whenever both are bound and slots do not wrap. */
  lemma SlotsNeverSwap(master: Mac, ops: seq<Op>, more: seq<Op>, a: Mac, b: Mac)
    requires Timed(ops) && Timed(ops + more)
    requires forall k :: |ops| <= k <= |ops + more| ==> Listed((ops + more)[..k], a) && Listed((ops + more)[..k], b)
    requires forall t :: t in {Run(master, ops), Run(master, ops + more)} ==>
      && |Slotted(t)| <= 255
      && t.Group(a).Some? && t.Group(a).value.BoundTo(master)
      && t.Group(b).Some? && t.Group(b).value.BoundTo(master)
    requires ComesBefore(Run(master, ops).order, a, b)
    ensures Run(master, ops).SlotOf(a) < Run(master, ops).SlotOf(b)
    ensures Run(master, ops + more).SlotOf(a) < Run(master, ops + more).SlotOf(b)
  {
    NeverSwap(master, ops, more, a, b);
    RunIsSane(master, ops);
    RunIsSane(master, ops + more);
    RunIsLocal(master, ops, a);
    RunIsLocal(master, ops + more, a);
    EarlierHasLowerSlot(Run(master, ops), a, b);
    EarlierHasLowerSlot(Run(master, ops + more), a, b);
  }
}
