/** The tracker seen from one address: what each operation does to that address's group alone. */
module Solo {
  import opened Types
  import opened Seqs
  import opened Groups

  /** The tracker's operations, with the instants they happen at. */
  datatype Op =
    | Observe(devices: seq<Device>, at: Time)
    | Sweep(at: Time)
    | Target(mac: Mac, wanted: Quad)
    | Clear(mac: Mac)
    | Deliver(mac: Mac, at: Time)

  function Apply(tracker: Tracker, op: Op): Tracker {
    match op
    case Observe(devices, at) => tracker.Observed(devices, at)
    case Sweep(at) => tracker.Swept(at)
    case Target(mac, wanted) => tracker.Targeted(mac, wanted)
    case Clear(mac) => tracker.Cleared(mac)
    case Deliver(mac, at) => tracker.Delivered(mac, at)
  }

  function Run(master: Mac, ops: seq<Op>): Tracker {
    if ops == [] then NewTracker(master) else Apply(Run(master, Front(ops)), Last(ops))
  }

  /** What seeing these devices does to the group of `mac`. */
  function SeeOne(group: Option<Group>, devices: seq<Device>, mac: Mac, now: Time): Option<Group> {
    if devices == [] then group
    else
      var before := SeeOne(group, Front(devices), mac, now);
      var seen := Last(devices);
      if seen.mac != mac then before
      else if before.None? then Some(NewGroup(seen, now))
      else Some(before.value.Sighted(seen, now))
  }

  /** What an operation does to the group of `mac`. */
  function ApplyOne(group: Option<Group>, op: Op, master: Mac, mac: Mac): Option<Group> {
    match op
    case Observe(devices, at) => SeeOne(group, devices, mac, at)
    case Sweep(at) => if group.Some? && group.value.Kept(master, at) then group else None
    case Target(m, wanted) => if m == mac && group.Some? then Some(group.value.Asked(wanted)) else group
    case Clear(m) => if m == mac && group.Some? then Some(group.value.Cleared()) else group
    case Deliver(m, at) => if m == mac && group.Some? then Some(group.value.Delivered(at)) else group
  }

  /** The group of `mac` after a whole run, computed from that address alone. */
  function RunOne(master: Mac, ops: seq<Op>, mac: Mac): Option<Group> {
    if ops == [] then None else ApplyOne(RunOne(master, Front(ops), mac), Last(ops), master, mac)
  }

  lemma GetMember(groups: seq<Group>, g: Group)
    requires Unique(groups) && g in groups
    ensures Get(groups, g.Mac()) == Some(g)
  {
    var i := IndexOf(groups, g.Mac());
  }

  lemma GetIn(groups: seq<Group>, mac: Mac)
    ensures Get(groups, mac).Some? ==> Get(groups, mac).value in groups && Get(groups, mac).value.Mac() == mac
    ensures Get(groups, mac).None? ==> forall g :: g in groups ==> g.Mac() != mac
  {
  }

  lemma SameIndex(a: seq<Group>, b: seq<Group>, mac: Mac)
    requires |a| == |b| && forall n :: 0 <= n < |a| ==> a[n].Mac() == b[n].Mac()
    ensures IndexOf(a, mac) == IndexOf(b, mac)
  {
    if a != [] && a[0].Mac() != mac {
      SameIndex(a[1..], b[1..], mac);
    }
  }

  lemma IndexAppended(groups: seq<Group>, g: Group, mac: Mac)
    ensures IndexOf(groups + [g], mac)
      == if IndexOf(groups, mac) < |groups| || g.Mac() == mac then IndexOf(groups, mac) else |groups| + 1
  {
    if groups != [] && groups[0].Mac() != mac {
      assert (groups + [g])[1..] == groups[1..] + [g];
      IndexAppended(groups[1..], g, mac);
    }
  }

  /** Replacing a group by one of the same address touches no other. */
  lemma GetReplaced(groups: seq<Group>, i: nat, g: Group, mac: Mac)
    requires Unique(groups) && i < |groups| && g.Mac() == groups[i].Mac()
    ensures Unique(groups[i := g])
    ensures Get(groups[i := g], mac) == if mac == g.Mac() then Some(g) else Get(groups, mac)
  {
    var after := groups[i := g];
    assert forall n :: 0 <= n < |groups| ==> after[n].Mac() == groups[n].Mac();
    SameIndex(groups, after, mac);
  }

  lemma GetSeen(groups: seq<Group>, seen: Device, now: Time, mac: Mac)
    requires Unique(groups)
    ensures Unique(See(groups, seen, now))
    ensures Get(See(groups, seen, now), mac) == SeeOne(Get(groups, mac), [seen], mac, now)
  {
    var i := IndexOf(groups, seen.mac);
    assert SeeOne(Get(groups, mac), Front([seen]), mac, now) == Get(groups, mac);
    if i < |groups| {
      GetReplaced(groups, i, groups[i].Sighted(seen, now), mac);
    } else {
      var after := groups + [NewGroup(seen, now)];
      IndexAppended(groups, NewGroup(seen, now), mac);
    }
  }

  lemma {:induction false} GetSeenAll(groups: seq<Group>, devices: seq<Device>, now: Time, mac: Mac)
    requires Unique(groups)
    ensures Unique(SeeAll(groups, devices, now))
    ensures Get(SeeAll(groups, devices, now), mac) == SeeOne(Get(groups, mac), devices, mac, now)
  {
    if devices != [] {
      GetSeenAll(groups, Front(devices), now, mac);
      var before := SeeAll(groups, Front(devices), now);
      GetSeen(before, Last(devices), now, mac);
      assert SeeOne(Get(before, mac), Front([Last(devices)]), mac, now) == Get(before, mac);
    }
  }

  lemma UniqueFilter(groups: seq<Group>, keep: Group -> bool)
    requires Unique(groups)
    ensures Unique(Filter(groups, keep))
  {
    forall i, j | 0 <= i < j < |Filter(groups, keep)|
      ensures Filter(groups, keep)[i].Mac() != Filter(groups, keep)[j].Mac()
    {
      var from, to := FilterEmbeds(groups, keep, i, j);
    }
  }

  lemma GetFiltered(groups: seq<Group>, keep: Group -> bool, mac: Mac)
    requires Unique(groups)
    ensures Unique(Filter(groups, keep))
    ensures Get(Filter(groups, keep), mac)
      == (if Get(groups, mac).Some? && keep(Get(groups, mac).value) then Get(groups, mac) else None)
  {
    UniqueFilter(groups, keep);
    FilterMembers(groups, keep);
    GetIn(groups, mac);
    GetIn(Filter(groups, keep), mac);
    var kept := Get(Filter(groups, keep), mac);
    if kept.Some? {
      GetMember(groups, kept.value);
    }
    if Get(groups, mac).Some? && keep(Get(groups, mac).value) {
      GetMember(Filter(groups, keep), Get(groups, mac).value);
    }
  }

  lemma GetChanged(tracker: Tracker, at: Mac, change: Group -> Group, mac: Mac)
    requires Unique(tracker.groups)
    requires forall g: Group :: change(g).Mac() == g.Mac()
    ensures Unique(tracker.Changed(at, change).groups)
    ensures tracker.Changed(at, change).Group(mac)
      == if at == mac && tracker.Group(mac).Some? then Some(change(tracker.Group(mac).value)) else tracker.Group(mac)
  {
    var i := IndexOf(tracker.groups, at);
    if i < |tracker.groups| {
      GetReplaced(tracker.groups, i, change(tracker.groups[i]), mac);
    }
  }

  lemma ApplyIsLocal(tracker: Tracker, op: Op, mac: Mac)
    requires Unique(tracker.groups)
    ensures Unique(Apply(tracker, op).groups)
    ensures Apply(tracker, op).Group(mac) == ApplyOne(tracker.Group(mac), op, tracker.masterMac, mac)
  {
    match op
    case Observe(devices, at) => GetSeenAll(tracker.groups, devices, at, mac);
    case Sweep(at) => GetFiltered(tracker.groups, (g: Group) => g.Kept(tracker.masterMac, at), mac);
    case Target(m, wanted) => GetChanged(tracker, m, (g: Group) => g.Asked(wanted), mac);
    case Clear(m) => GetChanged(tracker, m, (g: Group) => g.Cleared(), mac);
    case Deliver(m, at) => GetChanged(tracker, m, (g: Group) => g.Delivered(at), mac);
  }

  /** Whatever happens to other addresses, an address's group depends on its own operations only. */
  lemma {:induction false} RunIsLocal(master: Mac, ops: seq<Op>, mac: Mac)
    ensures Run(master, ops).masterMac == master
    ensures Unique(Run(master, ops).groups)
    ensures Run(master, ops).Group(mac) == RunOne(master, ops, mac)
  {
    if ops != [] {
      RunIsLocal(master, Front(ops), mac);
      ApplyIsLocal(Run(master, Front(ops)), Last(ops), mac);
    }
  }
}
