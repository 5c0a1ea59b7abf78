/** The tracker as it runs: two lists, updated in place. */
module DeviceTracker {
  import opened Types
  import opened Seqs
  import opened Debounce
  import opened Groups
  import Speed

  method AgreeOn<T(==)>(candidate: Option<Candidate<T>>, seen: T)
    returns (next: Option<Candidate<T>>, agreed: Option<T>)
    ensures (next, agreed) == Agree(candidate, seen)
  {
    next, agreed := candidate, None;
    if next.Some? && next.value.value == seen {
      next := Some(next.value.(count := next.value.count + 1));
      if next.value.count >= AGREE {
        next, agreed := None, Some(seen);
      }
    } else {
      next := Some(Candidate(seen, 1));
    }
  }

  /** A group is a value held by the tracker's list; this edits a copy, which the list then takes back. */
  method TakeSighting(group: Group, seen: Device, now: Time) returns (g: Group)
    ensures g == group.Sighted(seen, now)
  {
    g := group;
    if !g.Online(now) {
      g := g.(device := seen, identity := None, shape := None);
    } else {
      var kept := g.device;
      g := g.(device := WithShape(WithIdentity(seen, IdentityOf(kept)), ShapeOf(kept)));
      if IdentityOf(seen) == IdentityOf(kept) {
        g := g.(identity := None);
      } else {
        var next, agreed := AgreeOn(g.identity, IdentityOf(seen));
        g := g.(identity := next);
        if agreed.Some? {
          g := g.(device := WithIdentity(g.device, agreed.value));
        }
      }
      if ShapeOf(seen) == ShapeOf(kept) {
        g := g.(shape := None);
      } else {
        var next, agreed := AgreeOn(g.shape, ShapeOf(seen));
        g := g.(shape := next);
        if agreed.Some? {
          g := g.(device := WithShape(g.device, agreed.value));
        }
      }
    }
    g := g.(lastSeen := now);
    if g.IsAcknowledged(now) {
      g := g.(unacknowledged := 0);
    }
  }

  /** Each group with whether it was bound, as `sweep` reports those it forgets. */
  function Departures(groups: seq<Group>, master: Mac): (gone: seq<(Mac, bool)>)
    ensures |gone| == |groups|
  {
    seq(|groups|, i requires 0 <= i < |groups| => (groups[i].Mac(), groups[i].BoundTo(master)))
  }

  class DeviceTracker {
    const masterMac: Mac
    var groups: seq<Group>
    var order: seq<Mac>

    ghost function View(): Tracker
      reads this
    {
      Tracker(masterMac, groups, order)
    }

    constructor (master: Mac)
      ensures View() == NewTracker(master)
    {
      masterMac, groups, order := master, [], [];
    }

    method Find(mac: Mac) returns (i: nat)
      ensures i == IndexOf(groups, mac)
    {
      i := 0;
      while i < |groups| && groups[i].Mac() != mac
        invariant i <= |groups|
        invariant IndexOf(groups, mac) == i + IndexOf(groups[i..], mac)
      {
        i := i + 1;
      }
    }

    /** Takes in one discovery reply. */
    method Observe(devices: seq<Device>, now: Time)
      modifies this
      ensures View() == old(View()).Observed(devices, now)
    {
      for k := 0 to |devices|
        invariant order == old(order)
        invariant groups == SeeAll(old(groups), devices[..k], now)
      {
        var i := Find(devices[k].mac);
        if i < |groups| {
          var g := TakeSighting(groups[i], devices[k], now);
          groups := groups[i := g];
        } else {
          groups := groups + [NewGroup(devices[k], now)];
        }
        assert Front(devices[..k + 1]) == devices[..k];
      }
      assert devices[..|devices|] == devices;
      Rebuild(now);
    }

    /** Drops offline devices from the order and forgets those quiet for too long, reporting them. */
    method Sweep(now: Time) returns (forgotten: seq<(Mac, bool)>)
      modifies this
      ensures View() == old(View()).Swept(now)
      ensures forgotten == Departures(old(View()).Forgotten(now), masterMac)
    {
      var kept: seq<Group> := [];
      ghost var gone: seq<Group> := [];
      forgotten := [];
      for k := 0 to |groups|
        invariant groups == old(groups) && order == old(order)
        invariant kept == View().(groups := groups[..k]).Remembered(now)
        invariant gone == View().(groups := groups[..k]).Forgotten(now)
        invariant forgotten == Departures(gone, masterMac)
      {
        assert Front(groups[..k + 1]) == groups[..k];
        var bound := groups[k].BoundTo(masterMac);
        var keep := groups[k].Online(now) || (bound && Since(now, groups[k].lastSeen) < FORGET_AFTER);
        if keep {
          kept := kept + [groups[k]];
        } else {
          forgotten := forgotten + [(groups[k].Mac(), bound)];
          gone := gone + [groups[k]];
        }
      }
      assert groups[..|groups|] == groups;
      groups := kept;
      Rebuild(now);
    }

    method Rebuild(now: Time)
      modifies this`order
      ensures View() == old(View()).Rebuilt(now)
    {
      ghost var view := View();
      var staying: seq<Mac> := [];
      for k := 0 to |order|
        invariant View() == view
        invariant staying == Filter(order[..k], (mac: Mac) => view.Hears(mac, now))
      {
        assert Front(order[..k + 1]) == order[..k];
        var i := Find(order[k]);
        if i < |groups| && groups[i].Online(now) {
          staying := staying + [order[k]];
        }
      }
      assert order[..|order|] == order;
      var joining: seq<Group> := [];
      for k := 0 to |groups|
        invariant View() == view
        invariant joining == Filter(groups[..k], (g: Group) => g.Online(now) && g.Mac() !in staying)
      {
        assert Front(groups[..k + 1]) == groups[..k];
        if groups[k].Online(now) && groups[k].Mac() !in staying {
          joining := joining + [groups[k]];
        }
      }
      assert groups[..|groups|] == groups;
      order := staying + Sort(Macs(joining));
    }

    /** The groups of the slot order. */
    method OnlineGroups() returns (listed: seq<Group>)
      ensures listed == View().Listed()
    {
      listed := [];
      for k := 0 to |order|
        invariant listed == Listing(groups, order[..k])
      {
        assert Front(order[..k + 1]) == order[..k];
        var i := Find(order[k]);
        if i < |groups| {
          listed := listed + [groups[i]];
        }
      }
      assert order[..|order|] == order;
    }

    /** Online fan groups bound to the dongle, in slot order. */
    method FanGroups() returns (fans: seq<Group>)
      ensures fans == View().DrivenFans()
    {
      var listed := OnlineGroups();
      fans := [];
      for k := 0 to |listed|
        invariant fans == Filter(listed[..k], (g: Group) => g.BoundTo(masterMac) && g.HasFans())
      {
        assert Front(listed[..k + 1]) == listed[..k];
        if listed[k].BoundTo(masterMac) && listed[k].HasFans() {
          fans := fans + [listed[k]];
        }
      }
      assert listed[..|listed|] == listed;
    }

    /** The slot a speed command names for this device. */
    method Slot(mac: Mac) returns (slot: Byte)
      ensures slot == View().SlotOf(mac)
    {
      var listed := OnlineGroups();
      slot := Speed.Slot(Devices(listed), masterMac, mac);
    }

    /** Sets the duties wanted on a device, returning them as they will be sent; nothing for a stranger. */
    method SetTarget(mac: Mac, wanted: Quad) returns (prepared: Option<Quad>)
      modifies this`groups
      ensures View() == old(View()).Targeted(mac, wanted)
      ensures prepared == match old(View()).Group(mac)
                          case None => None
                          case Some(g) => Some(Speed.Prepared(g.device, wanted))
    {
      var i := Find(mac);
      if i == |groups| {
        return None;
      }
      var duty := Speed.Prepare(groups[i].device, wanted);
      if groups[i].target != Some(duty) {
        groups := groups[i := groups[i].(target := Some(duty), lastSent := None, unacknowledged := 0)];
      }
      prepared := Some(duty);
    }

    /** Drops the device's target, reporting whether it had one. */
    method ClearTarget(mac: Mac) returns (had: bool)
      modifies this`groups
      ensures View() == old(View()).Cleared(mac)
      ensures had <==> old(View()).Group(mac).Some? && old(View()).Group(mac).value.target.Some?
    {
      var i := Find(mac);
      if i == |groups| {
        return false;
      }
      had := groups[i].target.Some?;
      groups := groups[i := groups[i].(target := None, lastSent := None, unacknowledged := 0)];
    }

    /** Records that the device's target went out. */
    method Sent(mac: Mac, now: Time)
      modifies this`groups
      ensures View() == old(View()).Delivered(mac, now)
    {
      var i := Find(mac);
      if i < |groups| {
        groups := groups[i := groups[i].(lastSent := Some(now), unacknowledged := groups[i].unacknowledged + 1)];
      }
    }
  }
}
