/**
  What is known about the devices bound to the dongle, and what each discovery
  reply, sweep and command does to it.
 */
module Groups {
  import opened Types
  import opened Seqs
  import opened Debounce
  import Speed

  /** How long a bound device can stay offline before it is forgotten. */
  const FORGET_AFTER: nat := 600 * SECOND

  /** How recent a sighting must be for its reported duties to acknowledge a command. */
  const ACK_WINDOW: nat := 3 * SECOND

  /** How long an acknowledged duty is left alone before it is sent again. */
  const KEEPALIVE: nat := SECOND

  /** Who a device belongs to and how it is addressed. */
  datatype Identity = Identity(masterMac: Mac, channel: Byte, receiver: Byte)

  /** What a device is. */
  datatype Shape = Shape(deviceType: Byte, fanCount: Byte, rightAttach: bool, fanTypes: Quad)

  function IdentityOf(device: Device): Identity {
    Identity(device.masterMac, device.channel, device.receiver)
  }

  function ShapeOf(device: Device): Shape {
    Shape(device.deviceType, device.fanCount, device.rightAttach, device.fanTypes)
  }

  function WithIdentity(device: Device, identity: Identity): Device {
    device.(masterMac := identity.masterMac, channel := identity.channel, receiver := identity.receiver)
  }

  function WithShape(device: Device, shape: Shape): Device {
    device.(deviceType := shape.deviceType, fanCount := shape.fanCount,
            rightAttach := shape.rightAttach, fanTypes := shape.fanTypes)
  }

  /** One device and what has been asked of it. */
  datatype Group = Group(
    device: Device,
    lastSeen: Time,
    target: Option<Quad>,
    lastSent: Option<Time>,
    unacknowledged: nat,
    identity: Option<Candidate<Identity>>,
    shape: Option<Candidate<Shape>>)
  {
    function Mac(): Mac {
      device.mac
    }

    predicate Online(now: Time) {
      Since(now, lastSeen) <= OFFLINE_AFTER
    }

    predicate BoundTo(master: Mac) {
      device.masterMac == master
    }

    predicate HasFans() {
      device.deviceType == 0 && device.fanCount > 0
    }

    predicate IsAcknowledged(now: Time) {
      target.Some? && Since(now, lastSeen) <= ACK_WINDOW && Speed.Acknowledged(device.duty, target.value)
    }

    /** Never sent, reported differently from what is wanted, or sent `KEEPALIVE` or more ago. */
    predicate Due(now: Time) {
      target.Some? && (lastSent.None?
        || !Speed.Acknowledged(device.duty, target.value)
        || Since(now, lastSent.value) >= KEEPALIVE)
    }

    predicate Kept(master: Mac, now: Time) {
      Online(now) || (BoundTo(master) && Since(now, lastSeen) < FORGET_AFTER)
    }

    /** The group after its device was heard again. */
    function Sighted(seen: Device, now: Time): Group {
      var voted :=
        if !Online(now) then this.(device := seen, identity := None, shape := None)
        else
          var who := Vote(Voter(IdentityOf(device), identity), IdentityOf(seen));
          var what := Vote(Voter(ShapeOf(device), shape), ShapeOf(seen));
          this.(device := WithShape(WithIdentity(seen, who.held), what.held),
                identity := who.candidate, shape := what.candidate);
      var heard := voted.(lastSeen := now);
      if heard.IsAcknowledged(now) then heard.(unacknowledged := 0) else heard
    }

    function Asked(wanted: Quad): Group {
      var prepared := Speed.Prepared(device, wanted);
      if target == Some(prepared) then this
      else this.(target := Some(prepared), lastSent := None, unacknowledged := 0)
    }

    function Cleared(): Group {
      this.(target := None, lastSent := None, unacknowledged := 0)
    }

    function Delivered(now: Time): Group {
      this.(lastSent := Some(now), unacknowledged := unacknowledged + 1)
    }
  }

  function NewGroup(device: Device, now: Time): Group {
    Group(device, now, None, None, 0, None, None)
  }

  /** Where the group with this address is, or the length of the list. */
  function IndexOf(groups: seq<Group>, mac: Mac): (i: nat)
    ensures i <= |groups|
    ensures i < |groups| ==> groups[i].Mac() == mac
    ensures forall k :: 0 <= k < i ==> groups[k].Mac() != mac
  {
    if groups == [] then 0 else if groups[0].Mac() == mac then 0 else 1 + IndexOf(groups[1..], mac)
  }

  function Get(groups: seq<Group>, mac: Mac): Option<Group> {
    var i := IndexOf(groups, mac);
    if i < |groups| then Some(groups[i]) else None
  }

  /** No two groups share an address. */
  ghost predicate Unique(groups: seq<Group>) {
    forall i, j :: 0 <= i < j < |groups| ==> groups[i].Mac() != groups[j].Mac()
  }

  function See(groups: seq<Group>, seen: Device, now: Time): seq<Group> {
    var i := IndexOf(groups, seen.mac);
    if i < |groups| then groups[i := groups[i].Sighted(seen, now)] else groups + [NewGroup(seen, now)]
  }

  function SeeAll(groups: seq<Group>, devices: seq<Device>, now: Time): seq<Group> {
    if devices == [] then groups else See(SeeAll(groups, Front(devices), now), Last(devices), now)
  }

  /** Every device heard since start and not forgotten, and the slot order of those online. */
  datatype Tracker = Tracker(masterMac: Mac, groups: seq<Group>, order: seq<Mac>) {

    function Group(mac: Mac): Option<Group> {
      Get(groups, mac)
    }

    predicate Hears(mac: Mac, now: Time) {
      Group(mac).Some? && Group(mac).value.Online(now)
    }

    function Staying(now: Time): seq<Mac> {
      Filter(order, (mac: Mac) => Hears(mac, now))
    }

    function Joining(now: Time): seq<Group> {
      var staying := Staying(now);
      Filter(groups, (g: Group) => g.Online(now) && g.Mac() !in staying)
    }

    function Rebuilt(now: Time): Tracker {
      this.(order := Staying(now) + Sort(Macs(Joining(now))))
    }

    function Observed(devices: seq<Device>, now: Time): Tracker {
      this.(groups := SeeAll(groups, devices, now)).Rebuilt(now)
    }

    function Remembered(now: Time): seq<Group> {
      Filter(groups, (g: Group) => g.Kept(masterMac, now))
    }

    function Forgotten(now: Time): seq<Group> {
      Filter(groups, (g: Group) => !g.Kept(masterMac, now))
    }

    function Swept(now: Time): Tracker {
      this.(groups := Remembered(now)).Rebuilt(now)
    }

    /** The groups of the slot order. */
    function Listed(): seq<Group> {
      Listing(groups, order)
    }

    /** Online fan groups bound to the dongle, in slot order. */
    function DrivenFans(): seq<Group> {
      Filter(Listed(), (g: Group) => g.BoundTo(masterMac) && g.HasFans())
    }

    /** The slot a speed command names for this device. */
    function SlotOf(mac: Mac): Byte {
      Speed.Slot(Devices(Listed()), masterMac, mac)
    }

    /** Changes the group with this address, if there is one. */
    function Changed(mac: Mac, change: Group -> Group): Tracker {
      var i := IndexOf(groups, mac);
      if i < |groups| then this.(groups := groups[i := change(groups[i])]) else this
    }

    function Targeted(mac: Mac, wanted: Quad): Tracker {
      Changed(mac, (g: Group) => g.Asked(wanted))
    }

    function Cleared(mac: Mac): Tracker {
      Changed(mac, (g: Group) => g.Cleared())
    }

    function Delivered(mac: Mac, now: Time): Tracker {
      Changed(mac, (g: Group) => g.Delivered(now))
    }
  }

  function NewTracker(master: Mac): Tracker {
    Tracker(master, [], [])
  }

  function Macs(groups: seq<Group>): (macs: seq<Mac>)
    ensures |macs| == |groups|
    ensures forall i :: 0 <= i < |groups| ==> macs[i] == groups[i].Mac()
  {
    seq(|groups|, i requires 0 <= i < |groups| => groups[i].Mac())
  }

  function Devices(groups: seq<Group>): (devices: seq<Device>)
    ensures |devices| == |groups|
    ensures forall i :: 0 <= i < |groups| ==> devices[i] == groups[i].device
  {
    seq(|groups|, i requires 0 <= i < |groups| => groups[i].device)
  }

  /** The groups with these addresses, in the addresses' order, unknown ones left out. */
  function Listing(groups: seq<Group>, macs: seq<Mac>): seq<Group> {
    if macs == [] then []
    else
      var last := Get(groups, Last(macs));
      Listing(groups, Front(macs)) + if last.Some? then [last.value] else []
  }
}
