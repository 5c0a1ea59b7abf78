/** The count of sends not yet seen applied, as a function of the history of operations. */
module Unacknowledged {
  import opened Types
  import opened Groups
  import opened Solo
  import opened History
  import Speed

  /** Some sighting of `mac` in the reply reports the target applied. */
  ghost predicate ReportsApplied(devices: seq<Device>, mac: Mac, target: Quad) {
    exists d :: d in devices && d.mac == mac && Speed.Matches(d.duty, target)
  }

  /**
    The last operation starts the count of `mac` afresh: its group is created, its target
    changes for a different one, its target is cleared, or it is seen to have the target applied.
   */
  ghost predicate Restarts(master: Mac, ops: seq<Op>, mac: Mac)
    requires ops != []
  {
    var before := RunOne(master, Front(ops), mac);
    match Last(ops)
    case Observe(devices, at) =>
      before.None? || (before.value.target.Some? && ReportsApplied(devices, mac, before.value.target.value))
    case Target(m, wanted) =>
      m == mac && before.Some? && before.value.target != Some(Speed.Prepared(before.value.device, wanted))
    case Clear(m) => m == mac
    case _ => false
  }

  /** Successful sends to `mac` since its count last started afresh. */
  ghost function SendsSince(master: Mac, ops: seq<Op>, mac: Mac): nat {
    if ops == [] || Restarts(master, ops, mac) then 0
    else SendsSince(master, Front(ops), mac) + if Last(ops).Deliver? && Last(ops).mac == mac then 1 else 0
  }

  lemma {:induction false} SeeingCounts(group: Option<Group>, devices: seq<Device>, mac: Mac, now: Time)
    ensures SeeOne(group, devices, mac, now).None? ==> group.None?
    ensures SeeOne(group, devices, mac, now).Some? ==>
      var after := SeeOne(group, devices, mac, now).value;
      && after.target == (if group.Some? then group.value.target else None)
      && after.unacknowledged == (
           if group.None? || (group.value.target.Some? && ReportsApplied(devices, mac, group.value.target.value)) then 0
           else group.value.unacknowledged)
      && after.lastSent == (if group.Some? then group.value.lastSent else None)
  {
    if devices != [] {
      var seen := Last(devices);
      assert devices == Front(devices) + [seen];
      SeeingCounts(group, Front(devices), mac, now);
      if SeeOne(group, Front(devices), mac, now).Some? && seen.mac == mac {
        SightedKeeps(SeeOne(group, Front(devices), mac, now).value, seen, now);
      }
    }
  }

  lemma SightedKeeps(g: Group, seen: Device, now: Time)
    ensures g.Sighted(seen, now).target == g.target
    ensures g.Sighted(seen, now).unacknowledged
      == if g.target.Some? && Speed.Matches(seen.duty, g.target.value) then 0 else g.unacknowledged
    ensures g.Sighted(seen, now).lastSent == g.lastSent
  {
    SightedVotes(g, seen, now);
    assert g.Sighted(seen, now).device.duty == seen.duty;
    if g.target.Some? {
      Speed.AcknowledgedIff(seen.duty, g.target.value);
    }
  }

  /** On every run, the count is the number of successful sends since it last started afresh. */
  lemma {:induction false} RunCounts(master: Mac, ops: seq<Op>, mac: Mac)
    requires RunOne(master, ops, mac).Some?
    ensures RunOne(master, ops, mac).value.unacknowledged == SendsSince(master, ops, mac)
  {
    var before := RunOne(master, Front(ops), mac);
    if before.Some? {
      RunCounts(master, Front(ops), mac);
    }
    if Last(ops).Observe? {
      SeeingCounts(before, Last(ops).devices, mac, Last(ops).at);
    }
  }

  /** When `mac` was last sent to successfully since its group was created or its target changed or cleared. */
  function LastSent(master: Mac, ops: seq<Op>, mac: Mac): Option<Time> {
    if ops == [] then None
    else
      var before := RunOne(master, Front(ops), mac);
      match Last(ops)
      case Observe(_, _) => if before.None? then None else LastSent(master, Front(ops), mac)
      case Target(m, wanted) =>
        if m == mac && before.Some? && before.value.target != Some(Speed.Prepared(before.value.device, wanted))
        then None
        else LastSent(master, Front(ops), mac)
      case Clear(m) => if m == mac then None else LastSent(master, Front(ops), mac)
      case Deliver(m, at) => if m == mac then Some(at) else LastSent(master, Front(ops), mac)
      case Sweep(_) => LastSent(master, Front(ops), mac)
  }

  /** On every run, that is when the tracker says it was. */
  lemma {:induction false} RunSent(master: Mac, ops: seq<Op>, mac: Mac)
    requires RunOne(master, ops, mac).Some?
    ensures RunOne(master, ops, mac).value.lastSent == LastSent(master, ops, mac)
  {
    var before := RunOne(master, Front(ops), mac);
    if before.Some? {
      RunSent(master, Front(ops), mac);
    }
    if Last(ops).Observe? {
      SeeingCounts(before, Last(ops).devices, mac, Last(ops).at);
    }
  }

  /** The same of every group the tracker holds. */
  lemma CountsSends(master: Mac, ops: seq<Op>, g: Group)
    requires g in Run(master, ops).groups
    ensures g.unacknowledged == SendsSince(master, ops, g.Mac())
    ensures g.lastSent == LastSent(master, ops, g.Mac())
  {
    RunIsLocal(master, ops, g.Mac());
    GetMember(Run(master, ops).groups, g);
    RunCounts(master, ops, g.Mac());
    RunSent(master, ops, g.Mac());
  }
}
