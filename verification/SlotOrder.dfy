/**
  The slot order over runs of any length: who is in it, and who comes before whom,
  as functions of the history of sightings alone.
 */
module SlotOrder {
  import opened Types
  import opened Seqs
  import opened Debounce
  import opened Groups
  import opened Solo
  import opened History

  predicate Rebuilds(op: Op) {
    op.Observe? || op.Sweep?
  }

  /** At the latest observe or sweep, the address had been heard within 15 seconds. */
  predicate Listed(ops: seq<Op>, mac: Mac) {
    ops != [] &&
    if Rebuilds(Last(ops)) then
      Heard(ops, mac) != [] && Since(Last(ops).at, Last(Heard(ops, mac)).at) <= 15 * SECOND
    else Listed(Front(ops), mac)
  }

  /** The step at which an address that is listed was last not yet listed before. */
  function Joined(ops: seq<Op>, mac: Mac): (step: nat)
    ensures step <= |ops|
  {
    if ops != [] && Listed(Front(ops), mac) then Joined(Front(ops), mac) else |ops|
  }

  /** The earlier to join comes first; of those that joined in one step, the lower address. */
  predicate Precedes(ops: seq<Op>, a: Mac, b: Mac) {
    Joined(ops, a) < Joined(ops, b) || (Joined(ops, a) == Joined(ops, b) && Before(a, b))
  }

  /** The order holds exactly the listed addresses, by step of joining, then by address. */
  ghost predicate OrderFits(order: seq<Mac>, ops: seq<Op>) {
    && (forall mac :: mac in order <==> Listed(ops, mac))
    && (forall i, j :: 0 <= i < j < |order| ==> Precedes(ops, order[i], order[j]))
  }

  lemma MacsOf(groups: seq<Group>, mac: Mac)
    ensures mac in Macs(groups) <==> exists g :: g in groups && g.Mac() == mac
  {
    if mac in Macs(groups) {
      var i :| 0 <= i < |Macs(groups)| && Macs(groups)[i] == mac;
      assert groups[i] in groups;
    }
    if g :| g in groups && g.Mac() == mac {
      var i := Find(groups, g);
      assert Macs(groups)[i] == mac;
    }
  }

  /** What a rebuild leaves in the order: those it kept, in their old order, then the newcomers by address. */
  lemma RebuiltOrder(tracker: Tracker, now: Time)
    requires Unique(tracker.groups)
    ensures forall mac :: mac in tracker.Rebuilt(now).order <==> tracker.Hears(mac, now)
    ensures forall mac :: mac in tracker.Staying(now) <==> mac in tracker.order && tracker.Hears(mac, now)
    ensures Ascending(Sort(Macs(tracker.Joining(now))))
    ensures forall mac :: mac in Sort(Macs(tracker.Joining(now))) <==> mac !in tracker.order && tracker.Hears(mac, now)
  {
    var staying, joining := tracker.Staying(now), tracker.Joining(now);
    FilterMembers(tracker.order, (mac: Mac) => tracker.Hears(mac, now));
    FilterMembers(tracker.groups, (g: Group) => g.Online(now) && g.Mac() !in staying);
    UniqueFilter(tracker.groups, (g: Group) => g.Online(now) && g.Mac() !in staying);
    assert Distinct(Macs(joining));
    SortAscends(Macs(joining));
    forall mac ensures mac in Macs(joining) <==> mac !in staying && tracker.Hears(mac, now) {
      MacsOf(joining, mac);
      GetIn(tracker.groups, mac);
      if g :| g in joining && g.Mac() == mac {
        GetMember(tracker.groups, g);
      }
    }
  }

  lemma KnownIffHeard(master: Mac, ops: seq<Op>, mac: Mac)
    requires Timed(ops) && ops != [] && Rebuilds(Last(ops))
    ensures Run(master, ops).Hears(mac, Last(ops).at) <==> Listed(ops, mac)
  {
    RunIsLocal(master, ops, mac);
    RunFits(master, ops, mac);
  }

  /** The operation before its rebuild of the order. */
  function BeforeRebuild(tracker: Tracker, op: Op): Tracker
    requires Rebuilds(op)
  {
    if op.Observe? then tracker.(groups := SeeAll(tracker.groups, op.devices, op.at))
    else tracker.(groups := tracker.Remembered(op.at))
  }

  lemma OtherStep(master: Mac, ops: seq<Op>)
    requires ops != [] && !Rebuilds(Last(ops))
    requires OrderFits(Run(master, Front(ops)).order, Front(ops))
    ensures OrderFits(Run(master, ops).order, ops)
  {
    forall mac ensures Listed(ops, mac) == Listed(Front(ops), mac) {
    }
  }

  lemma RebuildHears(master: Mac, ops: seq<Op>)
    requires Timed(ops) && ops != [] && Rebuilds(Last(ops))
    ensures var before := BeforeRebuild(Run(master, Front(ops)), Last(ops));
      && Run(master, ops) == before.Rebuilt(Last(ops).at)
      && Unique(before.groups)
      && forall mac :: before.Hears(mac, Last(ops).at) <==> Listed(ops, mac)
  {
    var before := BeforeRebuild(Run(master, Front(ops)), Last(ops));
    RunIsLocal(master, ops, master);
    forall mac ensures before.Hears(mac, Last(ops).at) <==> Listed(ops, mac) {
      RunIsLocal(master, ops, mac);
      KnownIffHeard(master, ops, mac);
    }
  }

  /** Listed addresses in two blocks: those listed before, in their order, then the rest by address. */
  lemma BlocksAreOrdered(before: seq<Mac>, keep: Mac -> bool, joined: seq<Mac>, ops: seq<Op>)
    requires ops != [] && OrderFits(before, Front(ops))
    requires Ascending(joined)
    requires forall mac :: mac in joined ==> !Listed(Front(ops), mac)
    ensures var order := Filter(before, keep) + joined;
      forall i, j :: 0 <= i < j < |order| ==> Precedes(ops, order[i], order[j])
  {
    var staying := Filter(before, keep);
    var order := staying + joined;
    FilterMembers(before, keep);
    forall i, j | 0 <= i < j < |order| ensures Precedes(ops, order[i], order[j]) {
      if j < |staying| {
        assert staying[i] in staying && staying[j] in staying;
        var from, to := FilterEmbeds(before, keep, i, j);
      } else {
        assert joined[j - |staying|] in joined;
        if i < |staying| {
          assert staying[i] in staying;
        } else {
          assert joined[i - |staying|] in joined;
        }
      }
    }
  }

  lemma RebuiltFits(before: Tracker, ops: seq<Op>, now: Time)
    requires ops != [] && OrderFits(before.order, Front(ops))
    requires Unique(before.groups) && forall mac :: before.Hears(mac, now) <==> Listed(ops, mac)
    ensures OrderFits(before.Rebuilt(now).order, ops)
  {
    RebuiltOrder(before, now);
    BlocksAreOrdered(before.order, (mac: Mac) => before.Hears(mac, now), Sort(Macs(before.Joining(now))), ops);
    assert before.Rebuilt(now).order
      == Filter(before.order, (mac: Mac) => before.Hears(mac, now)) + Sort(Macs(before.Joining(now)));
  }

  /** Slot-order refinement: after any run, the order is what the history of sightings makes it. */
  lemma {:induction false} RunOrdered(master: Mac, ops: seq<Op>)
    requires Timed(ops)
    ensures OrderFits(Run(master, ops).order, ops)
  {
    if ops != [] {
      RunOrdered(master, Front(ops));
      if Rebuilds(Last(ops)) {
        RebuildHears(master, ops);
        RebuiltFits(BeforeRebuild(Run(master, Front(ops)), Last(ops)), ops, Last(ops).at);
      } else {
        OtherStep(master, ops);
      }
    }
  }

  /** The history leaves no choice: only one order fits it, and it lists nobody twice. */
  lemma OneOrderFits(a: seq<Mac>, b: seq<Mac>, ops: seq<Op>)
    requires OrderFits(a, ops) && OrderFits(b, ops)
    ensures a == b && Distinct(a)
  {
    SortedOneWay(a, b, (x: Mac, y: Mac) => Precedes(ops, x, y));
  }

  ghost predicate ComesBefore(order: seq<Mac>, a: Mac, b: Mac) {
    exists i, j :: 0 <= i < j < |order| && order[i] == a && order[j] == b
  }

  lemma {:induction false} JoinedStays(ops: seq<Op>, more: seq<Op>, mac: Mac)
    requires forall k :: |ops| <= k <= |ops + more| ==> Listed((ops + more)[..k], mac)
    ensures Joined(ops + more, mac) == Joined(ops, mac)
  {
    if more == [] {
      assert ops + more == ops;
    } else {
      var all := ops + more;
      assert Front(all) == ops + Front(more) == all[..|all| - 1];
      assert forall k :: |ops| <= k < |all| ==> (ops + Front(more))[..k] == all[..k];
      JoinedStays(ops, Front(more), mac);
    }
  }

  lemma HeardIsListed(ops: seq<Op>, devices: seq<Device>, at: Time, mac: Mac)
    requires Mine(devices, mac, at) != []
    ensures Listed(ops + [Observe(devices, at)], mac)
    ensures Front(ops + [Observe(devices, at)]) == ops
  {
    var all := ops + [Observe(devices, at)];
    assert Front(all) == ops;
    SightedNow(devices, mac, at);
    assert Last(Heard(all, mac)) == Last(Mine(devices, mac, at));
  }

  /** Heard again, however late, a device keeps the step it joined at exactly if it was still listed. */
  lemma ReturnJoins(ops: seq<Op>, devices: seq<Device>, at: Time, mac: Mac)
    requires Mine(devices, mac, at) != []
    ensures Listed(ops + [Observe(devices, at)], mac)
    ensures Joined(ops + [Observe(devices, at)], mac) == Joined(ops, mac) <==> Listed(ops, mac)
  {
    HeardIsListed(ops, devices, at, mac);
  }

  /** Who comes first in a run's order, read off the history. */
  lemma BeforeIff(master: Mac, ops: seq<Op>, a: Mac, b: Mac)
    requires Timed(ops) && a != b
    ensures ComesBefore(Run(master, ops).order, a, b) <==> Listed(ops, a) && Listed(ops, b) && Precedes(ops, a, b)
  {
    RunOrdered(master, ops);
    var order := Run(master, ops).order;
    if Listed(ops, a) && Listed(ops, b) && Precedes(ops, a, b) {
      var i := Find(order, a);
      var j := Find(order, b);
      assert !Precedes(ops, b, a);
    }
  }

  /**
    A silence costs a device its place exactly if somebody noticed it: heard again, however late, it
    comes behind another that stayed in the order if and only if it did before, or a reply or sweep
    in between had dropped it.
   */
  lemma UnnoticedSilenceKeepsPlace(master: Mac, ops: seq<Op>, devices: seq<Device>, at: Time, mac: Mac, other: Mac)
    requires Timed(ops + [Observe(devices, at)]) && Mine(devices, mac, at) != [] && other != mac
    requires Listed(ops, other) && Listed(ops + [Observe(devices, at)], other)
    ensures ComesBefore(Run(master, ops + [Observe(devices, at)]).order, other, mac)
      <==> !Listed(ops, mac) || ComesBefore(Run(master, ops).order, other, mac)
  {
    var all := ops + [Observe(devices, at)];
    HeardIsListed(ops, devices, at, mac);
    BeforeIff(master, ops, other, mac);
    BeforeIff(master, all, other, mac);
    assert Joined(all, other) == Joined(ops, other);
  }

  /** A device that returns after its silence was noticed ends behind everyone who stayed. */
  lemma NoticedSilenceLosesPlace(master: Mac, ops: seq<Op>, devices: seq<Device>, at: Time, mac: Mac, other: Mac)
    requires Timed(ops + [Observe(devices, at)]) && Mine(devices, mac, at) != [] && !Listed(ops, mac)
    requires Listed(ops, other) && Listed(ops + [Observe(devices, at)], other)
    ensures ComesBefore(Run(master, ops + [Observe(devices, at)]).order, other, mac)
  {
    UnnoticedSilenceKeepsPlace(master, ops, devices, at, mac, other);
  }

  /** A reply of one device, or a sweep, told from the history before it. */
  lemma OneHeard(ops: seq<Op>, op: Op, mac: Mac)
    requires op.Sweep? || (op.Observe? && |op.devices| == 1)
    ensures var all := ops + [op];
      && Heard(all, mac) == Heard(ops, mac)
           + (if op.Observe? && op.devices[0].mac == mac then [Sighting(op.devices[0], op.at)] else [])
      && (Listed(all, mac) <==> Heard(all, mac) != [] && Since(op.at, Last(Heard(all, mac)).at) <= 15 * SECOND)
      && Joined(all, mac) == (if Listed(ops, mac) then Joined(ops, mac) else |ops| + 1)
      && (Timed(all) <==> Timed(ops) && History.Latest(ops) <= op.at) && History.Latest(all) == op.at
  {
    assert Front(ops + [op]) == ops && Heard(ops, mac) + [] == Heard(ops, mac);
    if op.Observe? {
      assert Front(op.devices) == [] && Mine([], mac, op.at) == [];
    }
  }

  /** `first` is heard, then `second`, then `first` again. */
  function HeardAgain(first: Device, second: Device, later: Time, again: Time): seq<Op> {
    [Observe([first], 0), Sweep(0), Observe([second], later), Sweep(later), Observe([first], again), Sweep(again)]
  }

  /** Then `first` is listed before `second`, however long it was silent, if no reply or sweep noticed that. */
  lemma SilenceUnnoticed(master: Mac, first: Device, second: Device, later: Time, again: Time)
    requires first.mac != second.mac && later <= 15 * SECOND && later <= again <= later + 15 * SECOND
    ensures var ops := HeardAgain(first, second, later, again);
      Timed(ops) && ComesBefore(Run(master, ops).order, first.mac, second.mac)
  {
    hide Heard, Listed, Joined, Run, Timed;
    var ops := HeardAgain(first, second, later, again);
    var one := [] + [ops[0]];
    var two := one + [ops[1]];
    var three := two + [ops[2]];
    var four := three + [ops[3]];
    var five := four + [ops[4]];
    assert five + [ops[5]] == ops;
    forall mac | mac == first.mac || mac == second.mac
      ensures Timed(ops) && Listed(ops, mac) && Joined(ops, mac) == if mac == first.mac then 1 else 3
    {
      NobodyYet(mac);
      OneHeard([], ops[0], mac);
      OneHeard(one, ops[1], mac);
      OneHeard(two, ops[2], mac);
      OneHeard(three, ops[3], mac);
      OneHeard(four, ops[4], mac);
      OneHeard(five, ops[5], mac);
    }
    assert Joined(ops, first.mac) < Joined(ops, second.mac);
    BeforeIff(master, ops, first.mac, second.mac);
  }

  lemma NobodyYet(mac: Mac)
    ensures Heard([], mac) == [] && !Listed([], mac) && Timed([])
  {
  }

  lemma {:induction false} SightedNow(devices: seq<Device>, mac: Mac, at: Time)
    requires Mine(devices, mac, at) != []
    ensures Last(Mine(devices, mac, at)).at == at
  {
    if Last(devices).mac != mac {
      SightedNow(Front(devices), mac, at);
    }
  }

  /** Two addresses that both stay listed through any further operations never swap places. */
  lemma NeverSwap(master: Mac, ops: seq<Op>, more: seq<Op>, a: Mac, b: Mac)
    requires Timed(ops) && Timed(ops + more)
    requires forall k :: |ops| <= k <= |ops + more| ==> Listed((ops + more)[..k], a) && Listed((ops + more)[..k], b)
    requires ComesBefore(Run(master, ops).order, a, b)
    ensures ComesBefore(Run(master, ops + more).order, a, b)
  {
    var all := ops + more;
    RunOrdered(master, ops);
    RunOrdered(master, all);
    JoinedStays(ops, more, a);
    JoinedStays(ops, more, b);
    assert all[..|all|] == all;
    var i := Find(Run(master, all).order, a);
    var j := Find(Run(master, all).order, b);
    assert Precedes(all, a, b);
  }
}
