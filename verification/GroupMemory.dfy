/** The fan groups ever seen bound to the dongle, held in memory and kept in a file. */
module GroupMemory {
  import opened Types
  import opened GroupText

  /** The list, the addresses added to it, and whether a count in it changed. */
  datatype Outcome = Outcome(list: seq<Known>, added: seq<Mac>, changed: bool) {

    /** Whether the file is to be written. */
    predicate Writes() {
      added != [] || changed
    }
  }

  /** Where an address is listed, or the length of the list. */
  function Index(list: seq<Known>, mac: Mac): (i: nat)
    ensures i <= |list|
    ensures i < |list| ==> list[i].mac == mac
    ensures forall k :: 0 <= k < i ==> list[k].mac != mac
  {
    if list == [] || list[0].mac == mac then 0 else 1 + Index(list[1..], mac)
  }

  /** One group taken note of: a new address joins the end, a known one takes the new count. */
  function Noted(o: Outcome, k: Known): Outcome {
    if k.fans < 1 then o
    else
      var i := Index(o.list, k.mac);
      if i == |o.list| then o.(list := o.list + [k], added := o.added + [k.mac])
      else if o.list[i].fans != k.fans then o.(list := o.list[i := o.list[i].(fans := k.fans)], changed := true)
      else o
  }

  function Remembered(list: seq<Known>, groups: seq<Known>): Outcome {
    if groups == [] then Outcome(list, [], false) else Noted(Remembered(list, Front(groups)), Last(groups))
  }

  /** The count listed for an address. */
  function FansOf(list: seq<Known>, mac: Mac): Option<int> {
    var i := Index(list, mac);
    if i < |list| then Some(list[i].fans) else None
  }

  ghost predicate Clean(list: seq<Known>) {
    DistinctMacs(list) && forall i :: 0 <= i < |list| ==> list[i].fans >= 1
  }

  // What is added.

  /** The list keeps its addresses in place, and the new ones follow: exactly those returned, in order. */
  ghost predicate Grows(list: seq<Known>, o: Outcome) {
    && |o.list| == |list| + |o.added|
    && (forall i :: 0 <= i < |list| ==> o.list[i].mac == list[i].mac)
    && (forall j :: 0 <= j < |o.added| ==> o.list[|list| + j].mac == o.added[j])
  }

  lemma NotedGrows(list: seq<Known>, o: Outcome, k: Known)
    requires Clean(o.list) && Grows(list, o)
    ensures Clean(Noted(o, k).list) && Grows(list, Noted(o, k))
  {
    var i := Index(o.list, k.mac);
  }

  /**
    Remembering only adds at the end and changes counts: no address is dropped, moved or listed
    twice, and what is returned is exactly the addresses added.
   */
  lemma {:induction false} RememberedGrows(list: seq<Known>, groups: seq<Known>)
    requires Clean(list)
    ensures Clean(Remembered(list, groups).list)
    ensures Grows(list, Remembered(list, groups))
  {
    if groups != [] {
      hide Noted;
      RememberedGrows(list, Front(groups));
      NotedGrows(list, Remembered(list, Front(groups)), Last(groups));
    }
  }

  // What is counted.

  /** The count of an address after these groups: the last they give it, if any does. */
  function CountAfter(count: Option<int>, groups: seq<Known>, mac: Mac): Option<int> {
    if groups == [] then count
    else if Last(groups).mac == mac && Last(groups).fans >= 1 then Some(Last(groups).fans)
    else CountAfter(count, Front(groups), mac)
  }

  lemma NotedCounts(o: Outcome, k: Known, mac: Mac)
    requires Clean(o.list)
    ensures FansOf(Noted(o, k).list, mac) == if k.mac == mac && k.fans >= 1 then Some(k.fans) else FansOf(o.list, mac)
    ensures Noted(o, k).changed <==>
      o.changed || (k.fans >= 1 && FansOf(o.list, k.mac).Some? && FansOf(o.list, k.mac) != Some(k.fans))
    ensures Noted(o, k).added == o.added + if k.fans >= 1 && FansOf(o.list, k.mac).None? then [k.mac] else []
  {
    var after := Noted(o, k).list;
    NotedGrows(o.list, Outcome(o.list, [], false), k);
    assert o.added + [] == o.added;
    var i, j := Index(o.list, mac), Index(after, mac);
    if i < |o.list| {
      assert after[i].mac == mac && i == j;
    } else if k.mac == mac && k.fans >= 1 {
      assert after[|o.list|].mac == mac && j == |o.list|;
    } else {
      assert forall n :: 0 <= n < |o.list| ==> after[n].mac == o.list[n].mac;
    }
  }

  /** Every address ends with the last count given for it; all others keep theirs. */
  lemma {:induction false} RememberedCounts(list: seq<Known>, groups: seq<Known>, mac: Mac)
    requires Clean(list)
    ensures FansOf(Remembered(list, groups).list, mac) == CountAfter(FansOf(list, mac), groups, mac)
  {
    if groups != [] {
      hide Noted;
      RememberedCounts(list, Front(groups), mac);
      RememberedGrows(list, Front(groups));
      NotedCounts(Remembered(list, Front(groups)), Last(groups), mac);
    }
  }

  // When the file is written.

  /** A group given a count other than the one its address has by then. */
  ghost predicate Differs(list: seq<Known>, groups: seq<Known>, i: nat)
    requires i < |groups|
  {
    var count := CountAfter(FansOf(list, groups[i].mac), groups[..i], groups[i].mac);
    groups[i].fans >= 1 && count.Some? && count.value != groups[i].fans
  }

  /** An address listed nowhere by then. */
  ghost predicate IsNew(list: seq<Known>, groups: seq<Known>, i: nat)
    requires i < |groups|
  {
    groups[i].fans >= 1 && CountAfter(FansOf(list, groups[i].mac), groups[..i], groups[i].mac).None?
  }

  /** The last of the groups, taken note of after the others. */
  lemma LastNoted(list: seq<Known>, groups: seq<Known>)
    requires Clean(list) && groups != []
    ensures var o, n := Remembered(list, Front(groups)), |groups| - 1;
      && (Remembered(list, groups).changed <==> o.changed || Differs(list, groups, n))
      && (Remembered(list, groups).added == [] <==> o.added == [] && !IsNew(list, groups, n))
  {
    hide Noted, Remembered, CountAfter, FansOf;
    var front, k := Front(groups), Last(groups);
    RememberedGrows(list, front);
    RememberedCounts(list, front, k.mac);
    NotedCounts(Remembered(list, front), k, k.mac);
    RememberedStep(list, groups);
    assert groups[..|groups| - 1] == front;
  }

  lemma SameBefore(list: seq<Known>, groups: seq<Known>, i: nat)
    requires i < |groups| - 1
    ensures Differs(list, Front(groups), i) <==> Differs(list, groups, i)
    ensures IsNew(list, Front(groups), i) <==> IsNew(list, groups, i)
  {
    assert Front(groups)[..i] == groups[..i];
  }

  lemma {:induction false} RememberedChanges(list: seq<Known>, groups: seq<Known>)
    requires Clean(list)
    ensures Remembered(list, groups).changed <==> exists i :: 0 <= i < |groups| && Differs(list, groups, i)
    ensures Remembered(list, groups).added == [] <==> forall i :: 0 <= i < |groups| ==> !IsNew(list, groups, i)
  {
    if groups != [] {
      hide Remembered, Differs, IsNew;
      RememberedChanges(list, Front(groups));
      LastNoted(list, groups);
      forall i | 0 <= i < |groups| - 1
        ensures Differs(list, Front(groups), i) <==> Differs(list, groups, i)
        ensures IsNew(list, Front(groups), i) <==> IsNew(list, groups, i)
      {
        SameBefore(list, groups, i);
      }
    }
  }

  lemma RememberedStep(list: seq<Known>, groups: seq<Known>)
    requires groups != []
    ensures Remembered(list, groups) == Noted(Remembered(list, Front(groups)), Last(groups))
  {
  }

  /** Two of the groups give one address different counts. */
  ghost predicate Disagree(groups: seq<Known>) {
    exists i, j :: 0 <= i < j < |groups| && Clashes(groups[i], groups[j])
  }

  predicate Clashes(a: Known, b: Known) {
    a.mac == b.mac && a.fans >= 1 && b.fans >= 1 && a.fans != b.fans
  }

  /** Where the count of an address comes from. */
  lemma {:induction false} CountComesFrom(count: Option<int>, groups: seq<Known>, mac: Mac) returns (i: nat)
    ensures i < |groups| ==> groups[i].mac == mac && groups[i].fans >= 1
    ensures i < |groups| ==> CountAfter(count, groups, mac) == Some(groups[i].fans)
    ensures i >= |groups| ==> CountAfter(count, groups, mac) == count
    ensures forall k :: 0 <= k < |groups| && groups[k].mac == mac && groups[k].fans >= 1 ==> k <= i < |groups|
  {
    if groups == [] {
      i := 0;
    } else if Last(groups).mac == mac && Last(groups).fans >= 1 {
      i := |groups| - 1;
    } else {
      i := CountComesFrom(count, Front(groups), mac);
      if i >= |Front(groups)| {
        i := |groups|;
      }
    }
  }

  /** After these groups, the same again change no count unless two of them disagree. */
  lemma DiffersMeansDisagree(list: seq<Known>, groups: seq<Known>, i: nat)
    requires i < |groups|
    requires forall k :: 0 <= k < |groups| ==>
      FansOf(list, groups[k].mac) == CountAfter(None, groups, groups[k].mac) || groups[k].fans < 1
    requires Differs(list, groups, i)
    ensures Disagree(groups)
  {
    var mac := groups[i].mac;
    var last := CountComesFrom(None, groups, mac);
    var before := CountComesFrom(FansOf(list, mac), groups[..i], mac);
    var other := if before < i then before else last;
    assert Clashes(groups[other], groups[i]) && Clashes(groups[i], groups[other]);
  }

  lemma DisagreeMeansDiffers(list: seq<Known>, groups: seq<Known>, i: nat, j: nat)
    requires i < j < |groups| && Clashes(groups[i], groups[j])
    ensures exists k :: 0 <= k < |groups| && Differs(list, groups, k)
    decreases j - i
  {
    var mac := groups[i].mac;
    var before := CountComesFrom(FansOf(list, mac), groups[..j], mac);
    assert groups[..j][i] == groups[i];
    if groups[before].fans != groups[j].fans {
      assert Differs(list, groups, j);
    } else {
      assert Clashes(groups[i], groups[before]);
      DisagreeMeansDiffers(list, groups, i, before);
    }
  }

  lemma SettledCounts(list: seq<Known>, groups: seq<Known>, k: nat)
    requires Clean(list) && k < |groups| && groups[k].fans >= 1
    ensures FansOf(Remembered(list, groups).list, groups[k].mac) == CountAfter(None, groups, groups[k].mac)
    ensures FansOf(Remembered(list, groups).list, groups[k].mac).Some?
  {
    RememberedCounts(list, groups, groups[k].mac);
    var a := CountComesFrom(FansOf(list, groups[k].mac), groups, groups[k].mac);
    var b := CountComesFrom(None, groups, groups[k].mac);
  }

  /**
    Remembering the same groups again adds nothing, and writes the file exactly when two of them
    give one address different counts; so never when no address is listed twice.
   */
  lemma RepeatWritesNothing(list: seq<Known>, groups: seq<Known>)
    requires Clean(list)
    ensures var again := Remembered(Remembered(list, groups).list, groups);
      && again.added == []
      && (again.Writes() <==> Disagree(groups))
  {
    hide Remembered;
    var known := Remembered(list, groups).list;
    RememberedGrows(list, groups);
    RememberedChanges(known, groups);
    forall i | 0 <= i < |groups| ensures !IsNew(known, groups, i) {
      if groups[i].fans >= 1 {
        SettledCounts(list, groups, i);
        var from := CountComesFrom(FansOf(known, groups[i].mac), groups[..i], groups[i].mac);
      }
    }
    forall k | 0 <= k < |groups|
      ensures FansOf(known, groups[k].mac) == CountAfter(None, groups, groups[k].mac) || groups[k].fans < 1
    {
      if groups[k].fans >= 1 {
        SettledCounts(list, groups, k);
      }
    }
    if i :| 0 <= i < |groups| && Differs(known, groups, i) {
      DiffersMeansDisagree(known, groups, i);
    }
    if Disagree(groups) {
      var i, j :| 0 <= i < j < |groups| && Clashes(groups[i], groups[j]);
      DisagreeMeansDiffers(known, groups, i, j);
    }
  }

  /** Nothing is written only if nothing changed. */
  lemma {:induction false} UnwrittenIsUnchanged(list: seq<Known>, groups: seq<Known>)
    requires !Remembered(list, groups).Writes()
    ensures Remembered(list, groups).list == list
  {
    if groups != [] {
      UnwrittenIsUnchanged(list, Front(groups));
    }
  }

  /** What is remembered of groups with one to four fans survives in the file, in order. */
  lemma RememberedIsReadBack(list: seq<Known>, groups: seq<Known>)
    requires Clean(list) && forall i :: 0 <= i < |list| ==> IsFanCount(list[i].fans)
    requires forall i :: 0 <= i < |groups| ==> groups[i].fans <= FANS_PER_GROUP
    ensures Countable(Remembered(list, groups).list)
    ensures ListIn(FileText(Remembered(list, groups).list)) == Remembered(list, groups).list
  {
    RememberedGrows(list, groups);
    CountsStaySmall(list, groups);
    FileRoundTrip(Remembered(list, groups).list);
  }

  lemma {:induction false} CountsStaySmall(list: seq<Known>, groups: seq<Known>)
    requires forall i :: 0 <= i < |list| ==> IsFanCount(list[i].fans)
    requires forall i :: 0 <= i < |groups| ==> groups[i].fans <= FANS_PER_GROUP
    ensures forall i :: 0 <= i < |Remembered(list, groups).list| ==> IsFanCount(Remembered(list, groups).list[i].fans)
  {
    if groups != [] {
      CountsStaySmall(list, Front(groups));
    }
  }

  // The memory itself.

  function Texts(macs: seq<Mac>): (texts: seq<string>)
    ensures |texts| == |macs|
  {
    seq(|macs|, i requires 0 <= i < |macs| => MacText(macs[i]))
  }

  /** The file: its text, if there is one. */
  class Disk {
    var text: Option<string>

    constructor (content: Option<string>)
      ensures text == content
    {
      text := content;
    }
  }

  /** What a fresh memory finds. */
  function Found(text: Option<string>, readable: bool): seq<Known> {
    if text.None? || !readable then [] else ListIn(text.value)
  }

  lemma FoundIsClean(text: Option<string>, readable: bool)
    ensures var list := Found(text, readable);
      Clean(list) && forall i :: 0 <= i < |list| ==> IsFanCount(list[i].fans)
  {
    if text.Some? {
      ReadIsClean(Lines(text.value));
    }
  }

  /** What a memory holds and its file says after these calls, if the file can be read and written. */
  ghost function After(text: Option<string>, calls: seq<seq<Known>>): (r: (seq<Known>, Option<string>))
    ensures Clean(r.0)
  {
    if calls == [] then
      FoundIsClean(text, true);
      (Found(text, true), text)
    else
      var (list, file) := After(text, Front(calls));
      var o := Remembered(list, Last(calls));
      RememberedGrows(list, Last(calls));
      (o.list, if o.Writes() then Some(FileText(o.list)) else file)
  }

  /**
    A restart. After any calls on a file that can be read and written, a fresh memory finds the
    entries with counts 1 to 4 in order: all that is held, exactly if every count is such.
   */
  lemma {:induction false} RestartFinds(text: Option<string>, calls: seq<seq<Known>>)
    ensures var (list, file) := After(text, calls);
      && Found(file, true) == Readable(list)
      && (Found(file, true) == list <==> forall i :: 0 <= i < |list| ==> IsFanCount(list[i].fans))
  {
    var (list, file) := After(text, calls);
    AllReadable(list);
    if calls == [] {
      FoundIsClean(text, true);
    } else {
      hide Remembered, FileText, ListIn, Readable;
      RestartFinds(text, Front(calls));
      var before := After(text, Front(calls)).0;
      if Remembered(before, Last(calls)).Writes() {
        FileRoundTrip(list);
      } else {
        UnwrittenIsUnchanged(before, Last(calls));
      }
    }
  }

  lemma OneMoreLine(list: seq<Known>, i: nat, text: string)
    requires Countable(list) && i < |list|
    ensures text + FileText(list[i..]) == text + (LineText(list[i]) + "\n") + FileText(list[i + 1..])
  {
    hide LineText;
    assert list[i..][0] == list[i] && list[i..][1..] == list[i + 1..];
  }

  class Memory {
    const disk: Disk
    var known: Option<seq<Known>>

    ghost predicate Valid()
      reads this
    {
      known.Some? ==> Clean(known.value)
    }

    /** What the memory holds, or would once it reads the file. */
    ghost function Holds(readable: bool): seq<Known>
      reads this, disk
    {
      if known.Some? then known.value else Found(disk.text, readable)
    }

    constructor (file: Disk)
      ensures Valid() && disk == file && known == None
    {
      disk, known := file, None;
    }

    /** Compares the addresses as texts. */
    method Find(list: seq<Known>, address: string, ghost mac: Mac) returns (i: nat)
      requires address == MacText(mac)
      ensures i == Index(list, mac)
    {
      hide MacText;
      i := 0;
      while i < |list| && MacText(list[i].mac) != address
        invariant i <= |list|
        invariant Index(list, mac) == i + Index(list[i..], mac)
      {
        AddressesDiffer(list[i].mac, mac);
        i := i + 1;
      }
      if i < |list| {
        AddressesDiffer(list[i].mac, mac);
      }
    }

    method Read(readable: bool) returns (list: seq<Known>)
      ensures list == Found(disk.text, readable)
      ensures disk.text.None? || !readable ==> list == []
    {
      list := [];
      if disk.text.None? || !readable {
        return;
      }
      var lines := Lines(disk.text.value);
      for i := 0 to |lines|
        invariant list == ListOf(lines[..i])
      {
        assert Front(lines[..i + 1]) == lines[..i];
        var k := LineIn(lines[i]);
        if k.Some? {
          var at := Find(list, MacText(k.value.mac), k.value.mac);
          if at == |list| {
            list := list + [k.value];
          }
        }
      }
      assert lines[..|lines|] == lines;
    }

    /** The list, read once and then held. */
    method Loaded(readable: bool) returns (list: seq<Known>)
      requires Valid()
      modifies `known
      ensures Valid() && known == Some(list) && list == old(Holds(readable))
    {
      if known.None? {
        list := Read(readable);
        if disk.text.Some? {
          ReadIsClean(Lines(disk.text.value));
        }
        known := Some(list);
      }
      list := known.value;
    }

    method Save(list: seq<Known>, writable: bool)
      requires Countable(list)
      modifies disk
      ensures disk.text == if writable then Some(FileText(list)) else old(disk.text)
    {
      hide MacText, Decimal;
      var text := "";
      for i := 0 to |list|
        invariant text + FileText(list[i..]) == FileText(list)
        invariant disk.text == old(disk.text)
      {
        var line := MacText(list[i].mac) + " " + Decimal(list[i].fans) + "\n";
        OneMoreLine(list, i, text);
        text := text + line;
      }
      assert list[|list|..] == [] && FileText([]) == "";
      assert text + "" == text;
      assert text == FileText(list);
      if writable {
        disk.text := Some(text);
      }
    }

    /** Takes note of each group in turn. */
    method Note(before: seq<Known>, groups: seq<Known>) returns (list: seq<Known>, added: seq<string>, changed: bool)
      ensures var o := Remembered(before, groups);
        list == o.list && added == Texts(o.added) && changed == o.changed
    {
      hide MacText;
      list, added, changed := before, [], false;
      for n := 0 to |groups|
        invariant var o := Remembered(before, groups[..n]);
          list == o.list && added == Texts(o.added) && changed == o.changed
      {
        assert Front(groups[..n + 1]) == groups[..n];
        var k := groups[n];
        if k.fans < 1 {
          continue;
        }
        var i := Find(list, MacText(k.mac), k.mac);
        if i == |list| {
          list := list + [k];
          added := added + [MacText(k.mac)];
        } else if list[i].fans != k.fans {
          list := list[i := list[i].(fans := k.fans)];
          changed := true;
        }
      }
      assert groups[..|groups|] == groups;
    }

    /** Adds any group not yet recorded and updates counts, writing the file when either happened. */
    method Remember(groups: seq<Known>, readable: bool, writable: bool) returns (added: seq<string>)
      requires Valid()
      modifies `known, disk
      ensures Valid()
      ensures var o := Remembered(old(Holds(readable)), groups);
        && added == Texts(o.added)
        && known == Some(o.list)
        && Countable(o.list)
        && disk.text == if o.Writes() && writable then Some(FileText(o.list)) else old(disk.text)
    {
      hide Remembered, FileText;
      var before := Loaded(readable);
      var list, changed;
      list, added, changed := Note(before, groups);
      RememberedGrows(before, groups);
      known := Some(list);
      if added != [] || changed {
        Save(list, writable);
      }
    }
  }
}
