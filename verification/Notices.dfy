/** The lines logged about groups that come, go quiet and are forgotten: who gets one, and who does not. */
module Notices {
  import opened Types
  import opened Seqs
  import opened Groups
  import opened Engine

  /** A line for exactly the listed groups that were not listed before. */
  lemma {:induction false} ArrivalsAre(listed: seq<Group>, before: seq<Mac>, master: Mac, e: Event)
    ensures e in Arrivals(listed, before, master) <==>
      exists g :: g in listed && g.Mac() !in before
        && e == Online(g.Mac(), g.device.fanCount, g.device.receiver, OwnerOf(g, master))
  {
    if listed != [] {
      ArrivalsAre(Front(listed), before, master, e);
      assert listed == Front(listed) + [Last(listed)];
      assert forall g :: g in listed <==> g in Front(listed) || g == Last(listed);
    }
  }

  /** And one line each. */
  lemma {:induction false} OneArrivalEach(listed: seq<Group>, before: seq<Mac>, master: Mac)
    requires Distinct(Macs(listed))
    ensures Distinct(Arrivals(listed, before, master))
  {
    if listed != [] {
      assert forall i :: 0 <= i < |listed| - 1 ==> Macs(Front(listed))[i] == Macs(listed)[i];
      OneArrivalEach(Front(listed), before, master);
      var lines := Arrivals(Front(listed), before, master);
      forall i | 0 <= i < |lines| ensures lines[i].Online? && lines[i].mac != Last(listed).Mac() {
        ArrivalsAre(Front(listed), before, master, lines[i]);
        var g :| g in Front(listed)
          && lines[i] == Online(g.Mac(), g.device.fanCount, g.device.receiver, OwnerOf(g, master));
        var k := Find(Front(listed), g);
        assert Macs(listed)[k] != Macs(listed)[|listed| - 1];
      }
    }
  }

  lemma {:induction false} OneSilenceEach(before: seq<Mac>, after: seq<Mac>, gone: seq<Mac>, tracker: Tracker)
    requires Distinct(before)
    ensures Distinct(Silences(before, after, gone, tracker))
  {
    if before != [] {
      OneSilenceEach(Front(before), after, gone, tracker);
      var lines := Silences(Front(before), after, gone, tracker);
      forall i | 0 <= i < |lines| ensures lines[i].Unheard? && lines[i].mac != Last(before) {
        SilencesAre(Front(before), after, gone, tracker, lines[i]);
        var k := Find(Front(before), lines[i].mac);
        assert before[k] != before[|before| - 1];
      }
    }
  }

  /** A line for exactly the fan groups bound to the dongle that were online, are not, and are still known. */
  lemma {:induction false} SilencesAre(before: seq<Mac>, after: seq<Mac>, gone: seq<Mac>, tracker: Tracker, e: Event)
    ensures e in Silences(before, after, gone, tracker) <==>
      && e.Unheard? && e.mac in before && e.mac !in after && e.mac !in gone
      && tracker.Group(e.mac).Some?
      && tracker.Group(e.mac).value.BoundTo(tracker.masterMac) && tracker.Group(e.mac).value.HasFans()
  {
    if before != [] {
      SilencesAre(Front(before), after, gone, tracker, e);
      assert before == Front(before) + [Last(before)];
      assert forall mac :: mac in before <==> mac in Front(before) || mac == Last(before);
    }
  }

  /** One line for each group forgotten, in order, saying of a bound one whether it is still wanted. */
  lemma {:induction false} FarewellsAre(forgotten: seq<Group>, master: Mac, wanted: map<Mac, Byte>)
    ensures |Farewells(forgotten, master, wanted)| == |forgotten|
    ensures forall i :: 0 <= i < |forgotten| ==>
      Farewells(forgotten, master, wanted)[i] == Farewell(forgotten[i], master, wanted)
  {
    if forgotten != [] {
      FarewellsAre(Front(forgotten), master, wanted);
    }
  }

  /** A group still heard, or bound and silent for less than ten minutes, is kept; every other is reported forgotten. */
  lemma SweepForgets(tracker: Tracker, now: Time, g: Group)
    requires g in tracker.groups
    ensures g in tracker.Swept(now).groups <==>
      || Since(now, g.lastSeen) <= 15 * SECOND
      || (g.device.masterMac == tracker.masterMac && Since(now, g.lastSeen) < 600 * SECOND)
    ensures g in tracker.Forgotten(now) <==> g !in tracker.Swept(now).groups
  {
    FilterMembers(tracker.groups, (h: Group) => h.Kept(tracker.masterMac, now));
    FilterMembers(tracker.groups, (h: Group) => !h.Kept(tracker.masterMac, now));
    assert g in tracker.Remembered(now) <==> g.Kept(tracker.masterMac, now);
    assert g in tracker.Forgotten(now) <==> !g.Kept(tracker.masterMac, now);
  }
}
