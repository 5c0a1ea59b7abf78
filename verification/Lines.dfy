/** What the engine's lines say, in words: who gets one, when, and what is in it, on every run. */
module Lines {
  import opened Types
  import opened Seqs
  import opened Groups
  import opened Radio
  import opened Engine
  import opened EngineHistory
  import opened Drive
  import opened Roster
  import opened EngineTick
  import opened TickTheorems
  import opened Ready
  import opened Journal
  import opened SlotOrder
  import Solo
  import Recovery
  import EngineTrace
  import FailTrace
  import Notices
  import Runs
  import Shutdown
  import Telling

  /** The notes one state has beyond another's. */
  function NewNotes(w: World, v: World): seq<Event> {
    if |Notes(w.events)| <= |Notes(v.events)| then Notes(v.events)[|Notes(w.events)|..] else []
  }

  lemma NotesBeyond(w: World, v: World, lines: seq<Event>)
    requires Notes(v.events) == Notes(w.events) + lines
    ensures NewNotes(w, v) == lines
  {
  }

  /** Each part of a tick's notes holds its own kinds of line. */
  lemma LineKinds(w: World, oracle: Oracle, now: Time, e: Event)
    ensures e in SkipLine(w, Answered(w, oracle, now), now) ==> e.Skipped?
    ensures e in ArrivalLines(w, oracle, now) ==> e.Online?
    ensures e in GoneLines(w.lastOnline, HeardBy(w, oracle, now), w.wanted, now) ==>
      e.Unheard? || e.Forgotten? || e.Gone?
    ensures forall before, after :: e in AlarmLine(before, after) ==> e.FailsafeRaised? || e.FailsafeCleared?
    ensures e in BackLines(Driven(w, oracle, now), oracle, now) ==> e.Reconnection?
  {
    hide World.AtDrive, HeardBy, Tracker.Swept, Tracker.Forgotten, Driven;
    var heard := HeardBy(w, oracle, now);
    if e in ArrivalLines(w, oracle, now) {
      Notices.ArrivalsAre(heard.Listed(), Macs(w.tracker.Listed()), w.tracker.masterMac, e);
    }
    var swept := heard.Swept(now);
    if e in Silences(w.lastOnline, Macs(swept.Listed()), Macs(heard.Forgotten(now)), swept) {
      Notices.SilencesAre(w.lastOnline, Macs(swept.Listed()), Macs(heard.Forgotten(now)), swept, e);
    }
    Notices.FarewellsAre(heard.Forgotten(now), heard.masterMac, w.wanted);
  }

  lemma TickNewNotes(w: World, oracle: Oracle, now: Time, e: Event)
    requires Consistent(w, now)
    ensures NewNotes(w, w.Tick(oracle, now)) == TickLines(w, oracle, now)
    ensures e.Skipped? ==>
      (e in TickLines(w, oracle, now) <==> e in SkipLine(w, Answered(w, oracle, now), now))
    ensures e.Online? ==> (e in TickLines(w, oracle, now) <==> e in ArrivalLines(w, oracle, now))
    ensures e.Unheard? || e.Forgotten? || e.Gone? ==>
      (e in TickLines(w, oracle, now) <==> e in GoneLines(w.lastOnline, HeardBy(w, oracle, now), w.wanted, now))
    ensures e.Released? || e.Stopping? ==> e !in TickLines(w, oracle, now)
  {
    hide World.Tick, World.AtDrive, Notes, SkipLine, ArrivalLines, GoneLines, AlarmLine, BackLines, HeardBy, Driven;
    hide PartsFit, LogsFit;
    TickNotes(w, oracle, now);
    NotesBeyond(w, w.Tick(oracle, now), TickLines(w, oracle, now));
    LineKinds(w, oracle, now, e);
  }

  // Who came, who went quiet, and who was forgotten.

  /** Whose a device is, to the engine. */
  predicate OwnedBy(owner: Owner, holder: Mac, master: Mac) {
    if holder == master then owner == Ours
    else if holder == Mac(0, 0, 0, 0, 0, 0) || holder == Mac(255, 255, 255, 255, 255, 255) then owner == Unbound
    else owner == Another(holder)
  }

  /** The tracker after the poll, one group at a time. */
  lemma HeardGroupIs(w: World, oracle: Oracle, now: Time, mac: Mac)
    requires Consistent(w, now)
    ensures var heard := HeardBy(w, oracle, now);
      && Unique(heard.groups) && heard.masterMac == w.tracker.masterMac
      && heard.Group(mac) == SeenAt(w, oracle, now, mac)
      && (Answered(w, oracle, now).Ok? ==> Sane(heard) && (mac in heard.order <==> heard.Hears(mac, now)))
  {
    hide PartsFit, LogsFit, Tracker.Rebuilt;
    ConsistentIsSane(w, now);
    var result := Answered(w, oracle, now);
    if result.Ok? {
      Solo.ApplyIsLocal(w.tracker, Solo.Observe(result.value.devices, now), mac);
      ObservedIsSane(w.tracker, result.value.devices, now);
    }
  }

  lemma ObservedIsSane(t: Tracker, devices: seq<Device>, now: Time)
    requires Sane(t)
    ensures var u := t.Observed(devices, now);
      && u.masterMac == t.masterMac && Sane(u) && forall mac :: mac in u.order <==> u.Hears(mac, now)
  {
    var seen := t.(groups := SeeAll(t.groups, devices, now));
    Solo.GetSeenAll(t.groups, devices, now, t.masterMac);
    RebuiltOrder(seen, now);
    RebuiltDistinct(seen, now);
  }

  lemma RebuiltDistinct(t: Tracker, now: Time)
    requires Unique(t.groups) && Distinct(t.order)
    ensures Distinct(t.Rebuilt(now).order)
  {
    RebuiltOrder(t, now);
    FilterDistinct(t.order, (mac: Mac) => t.Hears(mac, now));
    var staying, joining := t.Staying(now), Sort(Macs(t.Joining(now)));
    forall i, j | 0 <= i < |staying| && 0 <= j < |joining| ensures staying[i] != joining[j] {
      assert staying[i] in staying && joining[j] in joining;
    }
  }

  /** A tick tells of exactly the devices that its reply brings into the order, as it was heard, once each. */
  lemma OnlineIff(w: World, oracle: Oracle, now: Time, e: Event)
    requires Consistent(w, now) && e.Online?
    ensures var group := SeenAt(w, oracle, now, e.mac);
      e in NewNotes(w, w.Tick(oracle, now)) <==>
        && Answered(w, oracle, now).Ok? && e.mac !in w.tracker.order
        && group.Some? && Since(now, group.value.lastSeen) <= 15 * SECOND
        && e.fanCount == group.value.device.fanCount && e.receiver == group.value.device.receiver
        && OwnedBy(e.owner, group.value.device.masterMac, w.tracker.masterMac)
  {
    hide World.Tick, PartsFit, LogsFit, TickLines, Notes, SeenAt, HeardBy;
    TickNewNotes(w, oracle, now, e);
    HeardGroupIs(w, oracle, now, e.mac);
    ConsistentIsSane(w, now);
    ListedMacs(w.tracker);
    var heard := HeardBy(w, oracle, now);
    if Answered(w, oracle, now).Ok? {
      Notices.ArrivalsAre(heard.Listed(), w.tracker.order, w.tracker.masterMac, e);
      ListedMember(heard, e.mac);
    }
  }

  /** The listed group of an address. */
  lemma ListedMember(t: Tracker, mac: Mac)
    requires Sane(t)
    ensures forall g :: g in t.Listed() && g.Mac() == mac <==>
      mac in t.order && t.Group(mac) == Some(g)
  {
    ListedMacs(t);
    forall g | g in t.Listed() && g.Mac() == mac ensures mac in t.order && t.Group(mac) == Some(g) {
      var i := Find(t.Listed(), g);
      assert Macs(t.Listed())[i] == mac;
    }
    if mac in t.order {
      var i := Find(t.order, mac);
      Solo.GetIn(t.groups, mac);
      assert t.Listed()[i] in t.Listed();
    }
  }

  /** The same from any state that remembers who was listed. */
  lemma QuietIff(w: World, oracle: Oracle, now: Time, e: Event)
    requires Consistent(w, now) && w.lastOnline == w.tracker.order && e.Unheard?
    ensures var group := SeenAt(w, oracle, now, e.mac);
      e in NewNotes(w, w.Tick(oracle, now)) <==>
        && e.mac in w.tracker.order && group.Some?
        && 15 * SECOND < Since(now, group.value.lastSeen) < 600 * SECOND
        && group.value.device.masterMac == w.tracker.masterMac
        && group.value.device.deviceType == 0 && group.value.device.fanCount > 0
  {
    hide World.Tick, PartsFit, LogsFit, TickLines, Notes, SeenAt, HeardBy, Tracker.Swept, Tracker.Forgotten;
    var heard := HeardBy(w, oracle, now);
    var swept := heard.Swept(now);
    TickNewNotes(w, oracle, now, e);
    HeardGroupIs(w, oracle, now, e.mac);
    SweptGroupIs(heard, now, e.mac);
    Notices.SilencesAre(w.lastOnline, Macs(swept.Listed()), Macs(heard.Forgotten(now)), swept, e);
    NoSilence(heard, w.wanted, now, e);
  }

  lemma NoSilence(heard: Tracker, wanted: map<Mac, Byte>, now: Time, e: Event)
    requires e.Unheard?
    ensures e !in Farewells(heard.Forgotten(now), heard.masterMac, wanted)
  {
    hide Tracker.Forgotten;
    Notices.FarewellsAre(heard.Forgotten(now), heard.masterMac, wanted);
  }

  /** What a sweep does to one address: kept or reported, listed or not. */
  lemma SweptGroupIs(t: Tracker, now: Time, mac: Mac)
    requires Unique(t.groups)
    ensures var swept, group := t.Swept(now), t.Group(mac);
      var kept := group.Some? && (Since(now, group.value.lastSeen) <= 15 * SECOND
        || (group.value.device.masterMac == t.masterMac && Since(now, group.value.lastSeen) < 600 * SECOND));
      && swept.masterMac == t.masterMac
      && swept.Group(mac) == (if kept then group else None)
      && (mac in Macs(swept.Listed()) <==> group.Some? && Since(now, group.value.lastSeen) <= 15 * SECOND)
      && (mac in Macs(t.Forgotten(now)) <==> group.Some? && !kept)
      && (forall g :: g in t.Forgotten(now) && g.Mac() == mac <==> group == Some(g) && !kept)
  {
    hide Tracker.Rebuilt;
    var swept := t.Swept(now);
    MasterIsKept(t, [], now);
    Solo.ApplyIsLocal(t, Solo.Sweep(now), mac);
    SweptIsCurrent(t, now);
    SweptIsListed(t, now);
    FilterMembers(t.groups, (g: Group) => !g.Kept(t.masterMac, now));
    MacsOf(t.Forgotten(now), mac);
    Solo.GetIn(t.groups, mac);
    forall g | g in t.groups && g.Mac() == mac ensures t.Group(mac) == Some(g) {
      Solo.GetMember(t.groups, g);
    }
  }

  lemma SweptIsListed(t: Tracker, now: Time)
    requires Unique(t.groups)
    ensures forall mac :: mac in Macs(t.Swept(now).Listed()) <==> mac in t.Swept(now).order
  {
    var swept := t.Swept(now);
    SweptIsCurrent(t, now);
    ListingIs(swept.groups, swept.order);
    forall i | 0 <= i < |swept.order| ensures Macs(swept.Listed())[i] == swept.order[i] {
      Solo.GetIn(swept.groups, swept.order[i]);
    }
  }

  /**
    A tick tells of exactly the devices it forgets: those bound to the dongle and silent for ten
    minutes, with whether they are still wanted, and others silent for more than 15 seconds.
   */
  lemma ForgottenIff(w: World, oracle: Oracle, now: Time, e: Event)
    requires Consistent(w, now) && (e.Forgotten? || e.Gone?)
    ensures var group := SeenAt(w, oracle, now, e.mac);
      e in NewNotes(w, w.Tick(oracle, now)) <==>
        && group.Some?
        && if group.value.device.masterMac == w.tracker.masterMac then
             && Since(now, group.value.lastSeen) >= 600 * SECOND
             && e == Forgotten(e.mac, e.mac in w.wanted)
           else Since(now, group.value.lastSeen) > 15 * SECOND && e == Gone(e.mac)
  {
    hide World.Tick, PartsFit, LogsFit, TickLines, Notes, SeenAt, HeardBy, Tracker.Swept, Tracker.Forgotten;
    var heard := HeardBy(w, oracle, now);
    var swept, gone := heard.Swept(now), heard.Forgotten(now);
    TickNewNotes(w, oracle, now, e);
    HeardGroupIs(w, oracle, now, e.mac);
    SweptGroupIs(heard, now, e.mac);
    Notices.SilencesAre(w.lastOnline, Macs(swept.Listed()), Macs(gone), swept, e);
    Notices.FarewellsAre(gone, heard.masterMac, w.wanted);
    if e in Farewells(gone, heard.masterMac, w.wanted) {
      var i := Find(Farewells(gone, heard.masterMac, w.wanted), e);
      assert gone[i] in gone && gone[i].Mac() == e.mac;
    }
    if g :| g in gone && g.Mac() == e.mac {
      var i := Find(gone, g);
      assert Farewells(gone, heard.masterMac, w.wanted)[i] in Farewells(gone, heard.masterMac, w.wanted);
    }
  }

  // Over runs.

  predicate IsAlarmLine(e: Event) {
    e.FailsafeRaised? || e.FailsafeCleared?
  }

  predicate IsBackLine(e: Event) {
    e.Reconnection?
  }

  lemma FilterSix(a: seq<Event>, b: seq<Event>, c: seq<Event>, d: seq<Event>, e: seq<Event>, f: seq<Event>,
                  keep: Event -> bool)
    ensures Filter(a + b + c + d + e + f, keep)
      == Filter(a, keep) + Filter(b, keep) + Filter(c, keep) + Filter(d, keep) + Filter(e, keep) + Filter(f, keep)
  {
    hide Filter;
    FilterConcat(a, b, keep);
    FilterConcat(a + b, c, keep);
    FilterConcat(a + b + c, d, keep);
    FilterConcat(a + b + c + d, e, keep);
    FilterConcat(a + b + c + d + e, f, keep);
  }

  /** A tick's lines of the alarm and of reconnects. */
  lemma TickAlarmLines(w: World, oracle: Oracle, now: Time)
    ensures var ready, after := w.AtDrive(oracle, now), w.Tick(oracle, now);
      var lines := TickLines(w, oracle, now);
      && Filter(lines, IsAlarmLine) == AlarmLine(w.alarm, ready.alarm) + AlarmLine(ready.alarm, after.alarm)
      && Filter(lines, IsBackLine) == BackLines(Driven(w, oracle, now), oracle, now)
  {
    hide World.Tick, World.AtDrive, SkipLine, ArrivalLines, GoneLines, BackLines, HeardBy, Driven, Filter, AlarmLine;
    var ready, after := w.AtDrive(oracle, now), w.Tick(oracle, now);
    var skip, come := SkipLine(w, Answered(w, oracle, now), now), ArrivalLines(w, oracle, now);
    var gone := GoneLines(w.lastOnline, HeardBy(w, oracle, now), w.wanted, now);
    var first, back := AlarmLine(w.alarm, ready.alarm), BackLines(Driven(w, oracle, now), oracle, now);
    var last := AlarmLine(ready.alarm, after.alarm);
    FilterSix(skip, come, gone, first, back, last, IsAlarmLine);
    FilterSix(skip, come, gone, first, back, last, IsBackLine);
    forall e ensures KindsOf(e, skip, come, gone, back)
      && forall before, after :: e in AlarmLine(before, after) ==> IsAlarmLine(e)
    {
      LineKinds(w, oracle, now, e);
    }
    assert forall i :: 0 <= i < |skip| ==> KindsOf(skip[i], skip, come, gone, back);
    assert forall i :: 0 <= i < |come| ==> KindsOf(come[i], skip, come, gone, back);
    assert forall i :: 0 <= i < |gone| ==> KindsOf(gone[i], skip, come, gone, back);
    assert forall i :: 0 <= i < |back| ==> KindsOf(back[i], skip, come, gone, back);
    FilterNone(skip, IsAlarmLine);
    FilterNone(come, IsAlarmLine);
    FilterNone(gone, IsAlarmLine);
    FilterNone(back, IsAlarmLine);
    FilterAll(first, IsAlarmLine);
    FilterAll(last, IsAlarmLine);
    FilterNone(skip, IsBackLine);
    FilterNone(come, IsBackLine);
    FilterNone(gone, IsBackLine);
    FilterAll(back, IsBackLine);
    FilterNone(first, IsBackLine);
    FilterNone(last, IsBackLine);
    OnlyMiddle(first, last, back);
  }

  predicate KindsOf(e: Event, skip: seq<Event>, come: seq<Event>, gone: seq<Event>, back: seq<Event>) {
    && (e in skip ==> e.Skipped?) && (e in come ==> e.Online?)
    && (e in gone ==> e.Unheard? || e.Forgotten? || e.Gone?) && (e in back ==> e.Reconnection?)
  }

  lemma OnlyMiddle(first: seq<Event>, last: seq<Event>, back: seq<Event>)
    ensures [] + [] + [] + first + [] + last == first + last
    ensures [] + [] + [] + [] + back + [] == back
  {
  }

  /** The alarm's lines: raised and cleared in turn, raised last exactly while it is set. */
  ghost predicate InTurn(lines: seq<Event>, alarm: bool) {
    && (forall i :: 0 <= i < |lines| ==> lines[i] == if i % 2 == 0 then FailsafeRaised else FailsafeCleared)
    && (alarm <==> |lines| % 2 == 1)
  }

  lemma OneTurn(lines: seq<Event>, before: bool, after: bool)
    requires InTurn(lines, before)
    ensures InTurn(lines + AlarmLine(before, after), after)
  {
  }

  /** The dongles the successful reconnects found, in order. */
  function Found(calls: seq<Call>): seq<(Mac, Byte)> {
    if calls == [] then []
    else Found(Front(calls)) + if Telling.IsBack(Last(calls)) then [Last(calls).outcome.value] else []
  }

  /** The same, as the log tells it. */
  function FoundLines(lines: seq<Event>): seq<(Mac, Byte)> {
    if lines == [] then []
    else
      FoundLines(Front(lines))
      + if IsBackLine(Last(lines)) then [(Last(lines).masterMac, Last(lines).channel)] else []
  }

  lemma {:induction false} FoundAdd(a: seq<Call>, b: seq<Call>)
    ensures Found(a + b) == Found(a) + Found(b)
  {
    if b == [] {
      assert a + b == a;
    } else {
      assert Front(a + b) == a + Front(b);
      FoundAdd(a, Front(b));
    }
  }

  lemma {:induction false} FoundLinesAdd(a: seq<Event>, b: seq<Event>)
    ensures FoundLines(a + b) == FoundLines(a) + FoundLines(b)
  {
    if b == [] {
      assert a + b == a;
    } else {
      assert Front(a + b) == a + Front(b);
      FoundLinesAdd(a, Front(b));
    }
  }

  lemma {:induction false} FoundLinesKept(lines: seq<Event>)
    ensures FoundLines(Filter(lines, IsBackLine)) == FoundLines(lines)
  {
    if lines != [] {
      FoundLinesKept(Front(lines));
      FoundLinesAdd(Filter(Front(lines), IsBackLine), if IsBackLine(Last(lines)) then [Last(lines)] else []);
      OneFoundLine(Last(lines));
    }
  }

  lemma OneFoundLine(e: Event)
    ensures FoundLines([e]) == if IsBackLine(e) then [(e.masterMac, e.channel)] else []
  {
    assert Front([e]) == [];
  }

  lemma {:induction false} NothingFound(calls: seq<Call>)
    requires forall i :: 0 <= i < |calls| ==> !calls[i].Reconnected?
    ensures Found(calls) == []
  {
    if calls != [] {
      NothingFound(Front(calls));
    }
  }

  /** What a tick's calls found is what its lines tell. */
  lemma TickFinds(w: World, oracle: Oracle, now: Time)
    requires Consistent(w, now)
    ensures var v := w.Tick(oracle, now);
      && Extends(w, v)
      && Found(NewCalls(w, v)) == FoundLines(BackLines(Driven(w, oracle, now), oracle, now))
  {
    hide World.Tick, World.AtDrive, PartsFit, LogsFit, Plan, Commands, Settled, NewCalls, Found, BackLines, Driven;
    hide Extends;
    var ready, driven, after := w.AtDrive(oracle, now), Driven(w, oracle, now), w.Tick(oracle, now);
    TickShape(w, oracle, now);
    TickIs(w, oracle, now);
    RestIs(driven, oracle, now);
    var a, b, c := NewCalls(w, ready), NewCalls(ready, driven), NewCalls(driven, after);
    ThreeStretches(w, after, a, b, c);
    BeforeTheReconnect(a, b);
    FoundAdd(a + b, c);
    FoundByLast(driven, oracle, now, c);
    assert [] + Found(c) == Found(c);
  }

  lemma BeforeTheReconnect(a: seq<Call>, b: seq<Call>)
    requires forall call :: call in a ==> !call.Reconnected?
    requires forall call :: call in b ==> IsSpeed(call)
    ensures Found(a + b) == []
  {
    forall i | 0 <= i < |a + b| ensures !(a + b)[i].Reconnected? {
      assert (a + b)[i] in a || (a + b)[i] in b;
    }
    NothingFound(a + b);
  }

  lemma FoundByLast(driven: World, oracle: Oracle, now: Time, calls: seq<Call>)
    requires calls == if driven.recovery.Attempts(now) then
        [Reconnected(driven.recovery.EveryChannel(), oracle(|driven.radio.calls|).reconnect, now)]
      else []
    ensures Found(calls) == FoundLines(BackLines(driven, oracle, now))
  {
    if driven.recovery.Attempts(now) {
      assert Front(calls) == [];
      var result := oracle(|driven.radio.calls|).reconnect;
      if result.Ok? {
        OneFoundLine(Reconnection(result.value.0, result.value.1));
      }
    }
  }

  /** What a request's lines are, and that it makes no call. */
  function AskLines(w: World, request: Request): seq<Event> {
    if request.Release? && (request.mac in w.wanted || TargetOf(w.tracker, request.mac).Some?)
    then [Released(request.mac)] else []
  }

  lemma AskNotes(w: World, request: Request, oracle: Oracle)
    ensures var v := Engine.Apply(w, Asked(request), oracle);
      && Notes(v.events) == Notes(w.events) + AskLines(w, request)
      && v.lastOnline == w.lastOnline && v.tracker.order == w.tracker.order && v.alarm == w.alarm
      && v.lastSkipLog == w.lastSkipLog && v.radio == w.radio
      && (ShowsLastFailure(w) ==> ShowsLastFailure(v))
  {
    hide Notes;
    NotesAdd(w.events, AskLines(w, request));
    AllNotes(AskLines(w, request));
    NothingMore(Notes(w.events));
    assert w.events + [] == w.events;
  }

  /** A stop writes one note, that it stops. */
  lemma StopNotes(w: World, oracle: Oracle, now: Time)
    requires Consistent(w, now)
    ensures var v := w.Shutdown(oracle, now);
      && Notes(v.events) == Notes(w.events) + [Stopping]
      && v.lastOnline == w.lastOnline && v.tracker.order == w.tracker.order && v.alarm == w.alarm
      && v.lastSkipLog == w.lastSkipLog && Extends(w, v) && Found(NewCalls(w, v)) == []
      && (ShowsLastFailure(w) ==> ShowsLastFailure(v))
  {
    hide Notes, World.LastSends, PartsFit, LogsFit, Commands;
    Shutdown.ShutdownIs(w, oracle, now);
    var sent := w.LastSends(FanMacs(w), oracle, now);
    LastSendsQuietly(w, FanMacs(w), oracle, now);
    NotesAdd(sent.events, [Stopping]);
    AllNotes([Stopping]);
    var calls := NewCalls(w, w.Shutdown(oracle, now));
    forall i | 0 <= i < |calls| ensures !calls[i].Reconnected? {
      assert calls[i] in calls;
    }
    NothingFound(calls);
  }

  /** What every reachable state has told. */
  ghost predicate TellsAll(w: World) {
    && w.lastOnline == w.tracker.order
    && ShowsLastFailure(w)
    && InTurn(Filter(Notes(w.events), IsAlarmLine), w.alarm)
    && FoundLines(Notes(w.events)) == Found(w.radio.calls)
  }

  /** A step whose notes are these, about neither the alarm nor a reconnect. */
  lemma OtherTells(w: World, v: World, lines: seq<Event>)
    requires TellsAll(w) && Notes(v.events) == Notes(w.events) + lines
    requires |lines| <= 1 && forall i :: 0 <= i < |lines| ==> !IsAlarmLine(lines[i]) && !IsBackLine(lines[i])
    requires v.lastOnline == w.lastOnline && v.tracker.order == w.tracker.order && v.alarm == w.alarm
    requires ShowsLastFailure(v)
    requires Extends(w, v) && Found(NewCalls(w, v)) == []
    ensures TellsAll(v)
  {
    hide Notes, Filter, Found;
    FilterConcat(Notes(w.events), lines, IsAlarmLine);
    FilterNone(lines, IsAlarmLine);
    FoundLinesAdd(Notes(w.events), lines);
    FoundAdd(w.radio.calls, NewCalls(w, v));
    if lines != [] {
      OneFoundLine(lines[0]);
      assert lines == [lines[0]];
    }
    assert Filter(Notes(w.events), IsAlarmLine) + [] == Filter(Notes(w.events), IsAlarmLine);
    assert Found(w.radio.calls) + [] == Found(w.radio.calls);
    assert FoundLines(Notes(w.events)) + [] == FoundLines(Notes(w.events));
  }

  lemma TickTellsAll(w: World, oracle: Oracle, now: Time)
    requires Consistent(w, now) && TellsAll(w)
    ensures TellsAll(w.Tick(oracle, now))
  {
    hide World.Tick, World.AtDrive, Notes, Filter, Found, FoundLines, PartsFit, LogsFit, TickLines, BackLines;
    hide AlarmLine, InTurn, Driven, ShowsLastFailure;
    var v, ready, lines := w.Tick(oracle, now), w.AtDrive(oracle, now), TickLines(w, oracle, now);
    TickNotes(w, oracle, now);
    TickAlarmLines(w, oracle, now);
    FilterConcat(Notes(w.events), lines, IsAlarmLine);
    OneTurn(Filter(Notes(w.events), IsAlarmLine), w.alarm, ready.alarm);
    OneTurn(Filter(Notes(w.events), IsAlarmLine) + AlarmLine(w.alarm, ready.alarm), ready.alarm, v.alarm);
    Regroup(Filter(Notes(w.events), IsAlarmLine), AlarmLine(w.alarm, ready.alarm), AlarmLine(ready.alarm, v.alarm), []);
    NothingMore(AlarmLine(w.alarm, ready.alarm) + AlarmLine(ready.alarm, v.alarm));
    NothingMore(Filter(Notes(w.events), IsAlarmLine) + AlarmLine(w.alarm, ready.alarm)
                + AlarmLine(ready.alarm, v.alarm));
    TickFinds(w, oracle, now);
    FoundAdd(w.radio.calls, NewCalls(w, v));
    FoundLinesAdd(Notes(w.events), lines);
    FoundLinesKept(lines);
  }

  lemma NothingNew(w: World, v: World)
    requires v.radio == w.radio
    ensures Extends(w, v) && Found(NewCalls(w, v)) == []
  {
  }

  /**
    On every run: the failsafe lines are raised and cleared in turn, the last a raise exactly while
    the alarm is set; the reconnect lines are the dongles the calls found, in order; the failure
    published is the last the log was told of; and the list kept for comparison is the order.
   */
  lemma {:induction false} RunTellsAll(master: Mac, channel: Byte, steps: seq<Step>, oracle: Oracle)
    requires Engine.Timed(steps)
    ensures TellsAll(Engine.Run(master, channel, steps, oracle))
  {
    if steps != [] {
      hide World.Tick, World.Shutdown, Engine.Apply, TellsAll, PartsFit, LogsFit;
      RunTellsAll(master, channel, Front(steps), oracle);
      var w, now := Engine.Run(master, channel, Front(steps), oracle), Engine.Latest(steps);
      RunFits(master, channel, Front(steps), oracle);
      LaterFits(w, Engine.Latest(Front(steps)), now);
      StepTellsAll(w, Last(steps), oracle, now);
    } else {
      assert Engine.Run(master, channel, [], oracle) == NewWorld(master, channel);
    }
  }

  lemma StepTellsAll(w: World, step: Step, oracle: Oracle, now: Time)
    requires Consistent(w, now) && TellsAll(w) && (!step.Asked? ==> step.at == now)
    ensures TellsAll(Engine.Apply(w, step, oracle))
  {
    hide World.Tick, World.Shutdown, PartsFit, LogsFit, Notes, Filter, Found, FoundLines, ShowsLastFailure, InTurn;
    match step {
      case Asked(request) =>
        AskNotes(w, request, oracle);
        NothingNew(w, Engine.Apply(w, step, oracle));
        OtherTells(w, Engine.Apply(w, step, oracle), AskLines(w, request));
      case Ticked(at) => TickTellsAll(w, oracle, at);
      case Stopped(at) =>
        StopNotes(w, oracle, at);
        OtherTells(w, w.Shutdown(oracle, at), [Stopping]);
    }
  }

  /** The last failure published is that of the last call of the ticks that failed. */
  lemma LastFailureIsShown(master: Mac, channel: Byte, steps: seq<Step>, oracle: Oracle)
    requires Engine.Timed(steps)
    ensures Engine.Run(master, channel, steps, oracle).snapshot.lastError
      == LastFailure(FailTrace.Raised(FailTrace.TickedCalls(master, channel, steps, oracle)))
  {
    RunTellsAll(master, channel, steps, oracle);
    FailTrace.FailuresAreRecorded(master, channel, steps, oracle);
  }

  /** The alarm a tick or a stop publishes: three polls or more have failed since the last success. */
  lemma AlarmIsShown(master: Mac, channel: Byte, steps: seq<Step>, oracle: Oracle)
    requires Engine.Timed(steps) && steps != [] && !Last(steps).Asked?
    ensures var w := Engine.Run(master, channel, steps, oracle);
      w.snapshot.alarm <==> Recovery.FailedPolls(EngineTrace.Trials(w.radio.calls)) >= 3
  {
    hide World.AtDrive, World.DrivePhase, World.RecoverPhase, World.LastSends, PartsFit, LogsFit;
    hide World.FlushChanges, World.FlushFails;
    Runs.AlarmIsThreeFailures(master, channel, steps, oracle);
    var before := Engine.Run(master, channel, Front(steps), oracle);
    if Last(steps).Ticked? {
      TickIs(before, oracle, Last(steps).at);
    }
  }

  /**
    After any run, a tick tells that a device went quiet exactly if it was in the order, has been
    silent for more than 15 seconds and less than ten minutes, and is a fan group of the dongle's.
   */
  lemma UnheardIff(master: Mac, channel: Byte, steps: seq<Step>, now: Time, oracle: Oracle, e: Event)
    requires Engine.Timed(steps) && Engine.Latest(steps) <= now && e.Unheard?
    ensures var w := Engine.Run(master, channel, steps, oracle);
      var group := SeenAt(w, oracle, now, e.mac);
      e in NewNotes(w, w.Tick(oracle, now)) <==>
        && e.mac in w.tracker.order && group.Some?
        && 15 * SECOND < Since(now, group.value.lastSeen) < 600 * SECOND
        && group.value.device.masterMac == master
        && group.value.device.deviceType == 0 && group.value.device.fanCount > 0
  {
    hide World.Tick, PartsFit, LogsFit, NewNotes, SeenAt, Notes, Filter;
    var w := Engine.Run(master, channel, steps, oracle);
    RunFits(master, channel, steps, oracle);
    LaterFits(w, Engine.Latest(steps), now);
    RunTellsAll(master, channel, steps, oracle);
    Telling.SnapshotIsTrue(master, channel, steps, oracle);
    QuietIff(w, oracle, now, e);
  }

  // Skipped records.

  /** When a tick last told of skipped records. */
  ghost function SkipTold(master: Mac, channel: Byte, steps: seq<Step>, oracle: Oracle): Option<Time> {
    if steps == [] then None
    else
      var before := Engine.Run(master, channel, Front(steps), oracle);
      if Last(steps).Ticked? && exists e :: e in NewNotes(before, before.Tick(oracle, Last(steps).at)) && e.Skipped?
      then Some(Last(steps).at)
      else SkipTold(master, channel, Front(steps), oracle)
  }

  lemma TickSkips(w: World, oracle: Oracle, now: Time)
    requires Consistent(w, now)
    ensures (exists e :: e in NewNotes(w, w.Tick(oracle, now)) && e.Skipped?)
      <==> SkipLine(w, Answered(w, oracle, now), now) != []
  {
    hide World.Tick, TickLines, NewNotes, PartsFit, LogsFit, Notes;
    var line := SkipLine(w, Answered(w, oracle, now), now);
    if e :| e in NewNotes(w, w.Tick(oracle, now)) && e.Skipped? {
      TickNewNotes(w, oracle, now, e);
    }
    if line != [] {
      TickNewNotes(w, oracle, now, line[0]);
    }
  }

  lemma {:induction false} RunSkips(master: Mac, channel: Byte, steps: seq<Step>, oracle: Oracle)
    requires Engine.Timed(steps)
    ensures Engine.Run(master, channel, steps, oracle).lastSkipLog == SkipTold(master, channel, steps, oracle)
  {
    if steps != [] {
      hide World.Tick, World.Shutdown, NewNotes, PartsFit, LogsFit, Notes, SkipLine, TickLines;
      RunSkips(master, channel, Front(steps), oracle);
      var w, now := Engine.Run(master, channel, Front(steps), oracle), Engine.Latest(steps);
      RunFits(master, channel, Front(steps), oracle);
      LaterFits(w, Engine.Latest(Front(steps)), now);
      match Last(steps) {
        case Asked(request) => AskNotes(w, request, oracle);
        case Ticked(at) =>
          TickNotes(w, oracle, at);
          TickSkips(w, oracle, at);
        case Stopped(at) => StopNotes(w, oracle, at);
      }
    } else {
      assert Engine.Run(master, channel, [], oracle) == NewWorld(master, channel);
    }
  }

  /**
    After any run, a tick tells of the records its reply skipped, and of all skipped so far, exactly
    if there are any and no tick told of some in the last minute.
   */
  lemma SkippedIff(master: Mac, channel: Byte, steps: seq<Step>, now: Time, oracle: Oracle, e: Event)
    requires Engine.Timed(steps) && Engine.Latest(steps) <= now && e.Skipped?
    ensures var w := Engine.Run(master, channel, steps, oracle);
      var result, told := Answered(w, oracle, now), SkipTold(master, channel, steps, oracle);
      e in NewNotes(w, w.Tick(oracle, now)) <==>
        && result.Ok? && result.value.skipped > 0
        && e == Skipped(result.value.skipped, Telling.SkippedSum(w.radio.calls) + result.value.skipped)
        && (told.None? || Since(now, told.value) >= 60 * SECOND)
  {
    hide World.Tick, PartsFit, LogsFit, NewNotes, Notes, TickLines, SkipTold;
    var w := Engine.Run(master, channel, steps, oracle);
    RunFits(master, channel, steps, oracle);
    LaterFits(w, Engine.Latest(steps), now);
    RunSkips(master, channel, steps, oracle);
    Telling.SnapshotIsTrue(master, channel, steps, oracle);
    TickNewNotes(w, oracle, now, e);
  }
}
