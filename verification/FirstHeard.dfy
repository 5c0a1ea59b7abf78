/** The list of known groups over runs of any length: it is in the order they were first heard. */
module FirstHeard {
  import opened Types
  import opened Seqs
  import opened Groups
  import opened Solo
  import Speed

  /** The step at which an address that is known was last not yet known. */
  function Born(master: Mac, ops: seq<Op>, mac: Mac): (step: nat)
    ensures step <= |ops|
  {
    if ops != [] && RunOne(master, Front(ops), mac).Some? then Born(master, Front(ops), mac) else |ops|
  }

  /** The earlier to become known comes first; of those of one reply, the earlier in it. */
  predicate HeardBefore(master: Mac, ops: seq<Op>, a: Mac, b: Mac) {
    var first, second := Born(master, ops, a), Born(master, ops, b);
    || first < second
    || (first == second && first > 0 && ops[first - 1].Observe?
        && Speed.Position(ops[first - 1].devices, a) < Speed.Position(ops[first - 1].devices, b))
  }

  ghost predicate InOrder(master: Mac, ops: seq<Op>, groups: seq<Group>) {
    forall i, j :: 0 <= i < j < |groups| ==> HeardBefore(master, ops, groups[i].Mac(), groups[j].Mac())
  }

  // One reply.

  lemma PositionGrows(devices: seq<Device>, mac: Mac)
    requires devices != []
    ensures Speed.Position(devices, mac) ==
      if Speed.Position(Front(devices), mac) < |devices| - 1 then Speed.Position(Front(devices), mac)
      else if Last(devices).mac == mac then |devices| - 1
      else |devices|
  {
    var i, j := Speed.Position(Front(devices), mac), Speed.Position(devices, mac);
    assert forall k :: 0 <= k < |devices| - 1 ==> Front(devices)[k] == devices[k];
    if i < |devices| - 1 {
      assert devices[i].mac == mac;
      assert i == j;
    }
  }

  /**
    A reply keeps the known groups where they are and puts the others behind them, as the reply first
    lists them.
   */
  ghost predicate Appends(before: seq<Group>, devices: seq<Device>, after: seq<Group>) {
    && |before| <= |after|
    && (forall i :: 0 <= i < |before| ==> after[i].Mac() == before[i].Mac())
    && (forall k :: 0 <= k < |devices| ==> IndexOf(after, devices[k].mac) < |after|)
    && (forall i :: |before| <= i < |after| ==> Speed.Position(devices, after[i].Mac()) < |devices|)
    && (forall i, j :: |before| <= i < j < |after| ==>
          Speed.Position(devices, after[i].Mac()) < Speed.Position(devices, after[j].Mac()))
  }

  lemma FoundAt(groups: seq<Group>, mac: Mac, i: nat)
    requires i < |groups| && groups[i].Mac() == mac
    ensures IndexOf(groups, mac) < |groups|
  {
  }

  /** The positions found in a shorter list of devices hold in the longer one. */
  lemma PositionsHold(before: seq<Group>, devices: seq<Device>, after: seq<Group>)
    requires devices != [] && Appends(before, Front(devices), after)
    ensures forall i :: |before| <= i < |after| ==>
      Speed.Position(devices, after[i].Mac()) == Speed.Position(Front(devices), after[i].Mac())
  {
    forall i | |before| <= i < |after|
      ensures Speed.Position(devices, after[i].Mac()) == Speed.Position(Front(devices), after[i].Mac())
    {
      PositionGrows(devices, after[i].Mac());
    }
  }

  lemma SeenAppends(before: seq<Group>, devices: seq<Device>, middle: seq<Group>, now: Time)
    requires devices != [] && Appends(before, Front(devices), middle)
    ensures Appends(before, devices, See(middle, Last(devices), now))
  {
    hide Speed.Position;
    var seen := Last(devices);
    var i, after := IndexOf(middle, seen.mac), See(middle, Last(devices), now);
    assert forall n :: 0 <= n < |middle| ==> after[n].Mac() == middle[n].Mac();
    PositionsHold(before, devices, middle);
    forall k | 0 <= k < |devices| ensures IndexOf(after, devices[k].mac) < |after| {
      if k < |devices| - 1 {
        assert Front(devices)[k] == devices[k];
        FoundAt(after, devices[k].mac, IndexOf(middle, devices[k].mac));
      } else {
        FoundAt(after, seen.mac, i);
      }
    }
    if i == |middle| {
      NewIsLast(devices, middle);
    }
  }

  /** A device not known after the others of its reply is first listed last. */
  lemma NewIsLast(devices: seq<Device>, middle: seq<Group>)
    requires devices != [] && IndexOf(middle, Last(devices).mac) == |middle|
    requires forall k :: 0 <= k < |Front(devices)| ==> IndexOf(middle, Front(devices)[k].mac) < |middle|
    ensures Speed.Position(devices, Last(devices).mac) == |devices| - 1
    ensures Speed.Position(Front(devices), Last(devices).mac) == |devices| - 1
  {
    PositionGrows(devices, Last(devices).mac);
  }

  lemma {:induction false} AllAppend(before: seq<Group>, devices: seq<Device>, now: Time)
    ensures Appends(before, devices, SeeAll(before, devices, now))
  {
    if devices != [] {
      hide Appends, See;
      AllAppend(before, Front(devices), now);
      SeenAppends(before, devices, SeeAll(before, Front(devices), now), now);
    } else {
      assert SeeAll(before, devices, now) == before;
    }
  }

  // Whole runs.

  /** Two groups that were known already keep their order. */
  lemma OldPair(master: Mac, ops: seq<Op>, a: Mac, b: Mac)
    requires ops != [] && RunOne(master, Front(ops), a).Some? && RunOne(master, Front(ops), b).Some?
    requires HeardBefore(master, Front(ops), a, b)
    ensures HeardBefore(master, ops, a, b)
  {
    var first := Born(master, Front(ops), a);
    assert first > 0 ==> ops[first - 1] == Front(ops)[first - 1];
  }

  lemma KnownBefore(master: Mac, ops: seq<Op>, mac: Mac)
    ensures RunOne(master, ops, mac).Some? <==> exists g :: g in Run(master, ops).groups && g.Mac() == mac
  {
    RunIsLocal(master, ops, mac);
    GetIn(Run(master, ops).groups, mac);
  }

  /** The groups a reply adds were unknown before it, the others known. */
  lemma NewAreUnknown(master: Mac, ops: seq<Op>, i: nat)
    requires ops != [] && Last(ops).Observe? && i < |Run(master, ops).groups|
    ensures RunOne(master, Front(ops), Run(master, ops).groups[i].Mac()).Some? <==> i < |Run(master, Front(ops)).groups|
  {
    var before, after := Run(master, Front(ops)).groups, Run(master, ops).groups;
    AllAppend(before, Last(ops).devices, Last(ops).at);
    RunIsLocal(master, ops, master);
    hide SeeAll, RunOne, Speed.Position;
    KnownBefore(master, Front(ops), after[i].Mac());
    if i < |before| {
      assert before[i] in before;
    } else {
      assert forall n :: 0 <= n < |before| ==> before[n].Mac() == after[n].Mac() != after[i].Mac();
    }
  }

  lemma ReplyPair(master: Mac, ops: seq<Op>, i: nat, j: nat)
    requires ops != [] && Last(ops).Observe? && InOrder(master, Front(ops), Run(master, Front(ops)).groups)
    requires i < j < |Run(master, ops).groups|
    ensures HeardBefore(master, ops, Run(master, ops).groups[i].Mac(), Run(master, ops).groups[j].Mac())
  {
    var before, after := Run(master, Front(ops)).groups, Run(master, ops).groups;
    AllAppend(before, Last(ops).devices, Last(ops).at);
    NewAreUnknown(master, ops, i);
    NewAreUnknown(master, ops, j);
    hide SeeAll, RunOne, Run, Speed.Position;
    if j < |before| {
      assert before[i].Mac() == after[i].Mac() && before[j].Mac() == after[j].Mac();
      OldPair(master, ops, after[i].Mac(), after[j].Mac());
    } else {
      assert Born(master, ops, after[j].Mac()) == |ops|;
    }
  }

  lemma ReplyInOrder(master: Mac, ops: seq<Op>)
    requires ops != [] && Last(ops).Observe? && InOrder(master, Front(ops), Run(master, Front(ops)).groups)
    ensures InOrder(master, ops, Run(master, ops).groups)
  {
    hide HeardBefore, Run;
    forall i, j | 0 <= i < j < |Run(master, ops).groups|
      ensures HeardBefore(master, ops, Run(master, ops).groups[i].Mac(), Run(master, ops).groups[j].Mac())
    {
      ReplyPair(master, ops, i, j);
    }
  }

  lemma SweepInOrder(master: Mac, ops: seq<Op>)
    requires ops != [] && Last(ops).Sweep? && InOrder(master, Front(ops), Run(master, Front(ops)).groups)
    ensures InOrder(master, ops, Run(master, ops).groups)
  {
    var before, after := Run(master, Front(ops)).groups, Run(master, ops).groups;
    var keep := (g: Group) => g.Kept(Run(master, Front(ops)).masterMac, Last(ops).at);
    forall i, j | 0 <= i < j < |after| ensures HeardBefore(master, ops, after[i].Mac(), after[j].Mac()) {
      var from, to := FilterEmbeds(before, keep, i, j);
      assert before[from] in before && before[to] in before;
      KnownBefore(master, Front(ops), after[i].Mac());
      KnownBefore(master, Front(ops), after[j].Mac());
      OldPair(master, ops, after[i].Mac(), after[j].Mac());
    }
  }

  lemma ChangeKeepsMacs(t: Tracker, op: Op)
    requires !op.Observe? && !op.Sweep?
    ensures |Apply(t, op).groups| == |t.groups|
    ensures forall n :: 0 <= n < |t.groups| ==> Apply(t, op).groups[n].Mac() == t.groups[n].Mac()
  {
  }

  lemma ChangeInOrder(master: Mac, ops: seq<Op>)
    requires ops != [] && !Last(ops).Observe? && !Last(ops).Sweep?
    requires InOrder(master, Front(ops), Run(master, Front(ops)).groups)
    ensures InOrder(master, ops, Run(master, ops).groups)
  {
    var before, after := Run(master, Front(ops)).groups, Run(master, ops).groups;
    ChangeKeepsMacs(Run(master, Front(ops)), Last(ops));
    hide Apply, HeardBefore, Born;
    forall i, j | 0 <= i < j < |after| ensures HeardBefore(master, ops, after[i].Mac(), after[j].Mac()) {
      assert before[i] in before && before[j] in before;
      KnownBefore(master, Front(ops), after[i].Mac());
      KnownBefore(master, Front(ops), after[j].Mac());
      OldPair(master, ops, after[i].Mac(), after[j].Mac());
    }
  }

  /**
    On every run the groups are listed in the order they became known: of two, the one listed first
    became known at an earlier step, or at the same and earlier in that reply.
   */
  lemma {:induction false} RunInOrder(master: Mac, ops: seq<Op>)
    ensures InOrder(master, ops, Run(master, ops).groups)
  {
    if ops != [] {
      hide InOrder;
      RunInOrder(master, Front(ops));
      if Last(ops).Observe? {
        ReplyInOrder(master, ops);
      } else if Last(ops).Sweep? {
        SweepInOrder(master, ops);
      } else {
        ChangeInOrder(master, ops);
      }
    } else {
      assert Run(master, ops).groups == [];
    }
  }

  /** So is any part of them picked out by a test. */
  lemma PickedInOrder(master: Mac, ops: seq<Op>, keep: Group -> bool)
    ensures InOrder(master, ops, Filter(Run(master, ops).groups, keep))
  {
    hide HeardBefore;
    RunInOrder(master, ops);
    var groups := Run(master, ops).groups;
    forall i, j | 0 <= i < j < |Filter(groups, keep)|
      ensures HeardBefore(master, ops, Filter(groups, keep)[i].Mac(), Filter(groups, keep)[j].Mac())
    {
      var from, to := FilterEmbeds(groups, keep, i, j);
    }
  }
}
