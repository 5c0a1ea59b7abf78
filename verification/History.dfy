/**
  The tracker over runs of any length: what it believes of a device, where it lists it,
  and how many sends it counts, as functions of the history of operations alone.
 */
module History {
  import opened Types
  import opened Debounce
  import opened Groups
  import opened Solo

  predicate HasTime(op: Op) {
    op.Observe? || op.Sweep? || op.Deliver?
  }

  /** The latest instant in a run of operations. */
  function Latest(ops: seq<Op>): Time {
    if ops == [] then 0 else if HasTime(Last(ops)) then Last(ops).at else Latest(Front(ops))
  }

  /** Time never runs backwards from one operation to the next. */
  predicate Timed(ops: seq<Op>) {
    ops == [] || (Timed(Front(ops)) && (HasTime(Last(ops)) ==> Latest(Front(ops)) <= Last(ops).at))
  }

  /** The sightings of one address in a reply. */
  function Mine(devices: seq<Device>, mac: Mac, at: Time): seq<Sighting<Device>> {
    if devices == [] then []
    else Mine(Front(devices), mac, at) + if Last(devices).mac == mac then [Sighting(Last(devices), at)] else []
  }

  /** Every sighting of one address in a run, forgotten ones included. */
  function Heard(ops: seq<Op>, mac: Mac): seq<Sighting<Device>> {
    if ops == [] then []
    else Heard(Front(ops), mac) + if Last(ops).Observe? then Mine(Last(ops).devices, mac, Last(ops).at) else []
  }

  function Identities(heard: seq<Sighting<Device>>): seq<Sighting<Identity>> {
    seq(|heard|, i requires 0 <= i < |heard| => Sighting(IdentityOf(heard[i].value), heard[i].at))
  }

  function Shapes(heard: seq<Sighting<Device>>): seq<Sighting<Shape>> {
    seq(|heard|, i requires 0 <= i < |heard| => Sighting(ShapeOf(heard[i].value), heard[i].at))
  }

  /** What the tracker holds of an address is what its sightings, up to the instant `now`, have earned. */
  ghost predicate Fits(group: Option<Group>, heard: seq<Sighting<Device>>, mac: Mac, now: Time) {
    && (heard != [] ==> Last(heard).at <= now)
    && match group
       case None => heard == [] || Since(now, Last(heard).at) > 15 * SECOND
       case Some(g) =>
         && heard != []
         && g.Mac() == mac
         && g.lastSeen == Last(heard).at
         && g.device == WithShape(WithIdentity(Last(heard).value, IdentityOf(g.device)), ShapeOf(g.device))
         && Voter(IdentityOf(g.device), g.identity) == Watch(Identities(heard))
         && Voter(ShapeOf(g.device), g.shape) == Watch(Shapes(heard))
  }

  lemma WatchGrows<T>(history: seq<Sighting<T>>, seen: Sighting<T>)
    ensures Watch(history + [seen])
      == if history == [] || Since(seen.at, Last(history).at) > 15 * SECOND then Voter(seen.value, None)
         else Vote(Watch(history), seen.value)
  {
    assert Front(history + [seen]) == history;
  }

  lemma VoteKeepsApart(seen: Device, who: Identity, what: Shape)
    ensures var device := WithShape(WithIdentity(seen, who), what);
      IdentityOf(device) == who && ShapeOf(device) == what && device.mac == seen.mac
  {
  }

  lemma SightedVotes(g: Group, seen: Device, now: Time)
    ensures var s := g.Sighted(seen, now);
      && s.lastSeen == now
      && s.device == WithShape(WithIdentity(seen, IdentityOf(s.device)), ShapeOf(s.device))
      && Voter(IdentityOf(s.device), s.identity) == (
           if g.Online(now) then Vote(Voter(IdentityOf(g.device), g.identity), IdentityOf(seen))
           else Voter(IdentityOf(seen), None))
      && Voter(ShapeOf(s.device), s.shape) == (
           if g.Online(now) then Vote(Voter(ShapeOf(g.device), g.shape), ShapeOf(seen))
           else Voter(ShapeOf(seen), None))
  {
    var who := Vote(Voter(IdentityOf(g.device), g.identity), IdentityOf(seen));
    var what := Vote(Voter(ShapeOf(g.device), g.shape), ShapeOf(seen));
    VoteKeepsApart(seen, who.held, what.held);
    assert g.Sighted(seen, now).device
      == if g.Online(now) then WithShape(WithIdentity(seen, who.held), what.held) else seen;
  }

  lemma SightingFits(group: Option<Group>, heard: seq<Sighting<Device>>, seen: Device, before: Time, now: Time)
    requires Fits(group, heard, seen.mac, before) && before <= now
    ensures Fits(Some(if group.None? then NewGroup(seen, now) else group.value.Sighted(seen, now)),
                 heard + [Sighting(seen, now)], seen.mac, now)
  {
    var after := heard + [Sighting(seen, now)];
    assert Identities(after) == Identities(heard) + [Sighting(IdentityOf(seen), now)];
    assert Shapes(after) == Shapes(heard) + [Sighting(ShapeOf(seen), now)];
    if group.Some? {
      SightedVotes(group.value, seen, now);
    }
    WatchGrows(Identities(heard), Sighting(IdentityOf(seen), now));
    WatchGrows(Shapes(heard), Sighting(ShapeOf(seen), now));
  }

  lemma {:induction false} SightingsFit(group: Option<Group>, heard: seq<Sighting<Device>>,
                                        devices: seq<Device>, mac: Mac, before: Time, now: Time)
    requires Fits(group, heard, mac, before) && before <= now
    ensures Fits(SeeOne(group, devices, mac, now), heard + Mine(devices, mac, now), mac, now)
  {
    if devices == [] {
      assert heard + Mine(devices, mac, now) == heard;
    } else {
      SightingsFit(group, heard, Front(devices), mac, before, now);
      var middle, so := SeeOne(group, Front(devices), mac, now), heard + Mine(Front(devices), mac, now);
      if Last(devices).mac == mac {
        SightingFits(middle, so, Last(devices), now, now);
        assert so + [Sighting(Last(devices), now)] == heard + Mine(devices, mac, now);
      } else {
        assert so == heard + Mine(devices, mac, now);
      }
    }
  }

  lemma {:induction false} RunFits(master: Mac, ops: seq<Op>, mac: Mac)
    requires Timed(ops)
    ensures Fits(RunOne(master, ops, mac), Heard(ops, mac), mac, Latest(ops))
  {
    if ops != [] {
      hide Fits;
      RunFits(master, Front(ops), mac);
      var before := RunOne(master, Front(ops), mac);
      match Last(ops) {
        case Observe(devices, at) => SightingsFit(before, Heard(Front(ops), mac), devices, mac, Latest(Front(ops)), at);
        case _ =>
          assert Heard(ops, mac) == Heard(Front(ops), mac);
          OtherFits(before, Heard(ops, mac), Last(ops), master, mac, Latest(Front(ops)), Latest(ops));
      }
    }
  }

  /** No other operation changes what is believed; a sweep only forgets who was not heard in time. */
  lemma OtherFits(before: Option<Group>, heard: seq<Sighting<Device>>, op: Op, master: Mac, mac: Mac,
                  earlier: Time, now: Time)
    requires Fits(before, heard, mac, earlier) && earlier <= now && !op.Observe? && (op.Sweep? ==> op.at == now)
    ensures Fits(ApplyOne(before, op, master, mac), heard, mac, now)
  {
  }

  /**
    Debounce refinement. Over any run, a known device's identity and its shape are each what its
    whole history of sightings confirms, the rest of its record is its last sighting, and being
    forgotten and heard anew has no effect on either.
   */
  lemma Debounced(master: Mac, ops: seq<Op>, g: Group)
    requires Timed(ops) && g in Run(master, ops).groups
    ensures Heard(ops, g.Mac()) != []
    ensures Confirms(Identities(Heard(ops, g.Mac())), IdentityOf(g.device))
    ensures Confirms(Shapes(Heard(ops, g.Mac())), ShapeOf(g.device))
    ensures var last := Last(Heard(ops, g.Mac()));
      && g.lastSeen == last.at
      && g.device == WithShape(WithIdentity(last.value, IdentityOf(g.device)), ShapeOf(g.device))
  {
    RunIsLocal(master, ops, g.Mac());
    GetMember(Run(master, ops).groups, g);
    RunFits(master, ops, g.Mac());
    VoterConfirms(Identities(Heard(ops, g.Mac())));
    VoterConfirms(Shapes(Heard(ops, g.Mac())));
  }

  /** A device heard within 15 seconds of the latest operation is known. */
  lemma HeardIsKnown(master: Mac, ops: seq<Op>, mac: Mac)
    requires Timed(ops) && Heard(ops, mac) != []
    requires Since(Latest(ops), Last(Heard(ops, mac)).at) <= 15 * SECOND
    ensures Run(master, ops).Group(mac).Some?
  {
    RunIsLocal(master, ops, mac);
    RunFits(master, ops, mac);
  }
}
