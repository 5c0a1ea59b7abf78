/** The log of target changes: at most one line per group per ten seconds, the rest held and counted. */
module ChangeLog {
  import opened Types

  const CHANGE_LOG_EVERY: nat := 10 * SECOND

  /** A target as its line shows it: the percentage and the duties of the group's fans. */
  datatype Change = Change(percent: Byte, shown: seq<Byte>)

  datatype Entry = Entry(loggedAt: Time, held: nat, pending: Option<Change>)

  /** A change and how many earlier ones its line says were not logged. */
  datatype Note = Note(change: Change, held: nat)

  /** One line; or all the lines of one flush, which come in no particular order. */
  datatype Line =
    | Prompt(mac: Mac, note: Note, at: Time)
    | Overdue(notes: map<Mac, Note>, at: Time)

  datatype State = State(entries: map<Mac, Entry>, lines: seq<Line>) {

    function Changed(mac: Mac, change: Change, now: Time): State {
      if mac !in entries then
        State(entries[mac := Entry(now, 0, None)], lines + [Prompt(mac, Note(change, 0), now)])
      else
        var entry := entries[mac];
        if Since(now, entry.loggedAt) < CHANGE_LOG_EVERY then
          State(entries[mac := entry.(held := entry.held + 1, pending := Some(change))], lines)
        else
          State(entries[mac := Entry(now, 0, None)], lines + [Prompt(mac, Note(change, entry.held), now)])
    }

    predicate Ripe(mac: Mac, now: Time)
      requires mac in entries
    {
      entries[mac].pending.Some? && Since(now, entries[mac].loggedAt) >= CHANGE_LOG_EVERY
    }

    function Due(now: Time): map<Mac, Note> {
      map mac | mac in entries && Ripe(mac, now) ::
        Note(entries[mac].pending.value, Max(entries[mac].held - 1, 0))
    }

    function Flushed(now: Time): State {
      State(map mac | mac in entries :: if Ripe(mac, now) then Entry(now, 0, None) else entries[mac],
            if Due(now) == map[] then lines else lines + [Overdue(Due(now), now)])
    }
  }

  datatype Op = Record(mac: Mac, change: Change, at: Time) | Flush(at: Time)

  function Apply(s: State, op: Op): State {
    match op
    case Record(mac, change, at) => s.Changed(mac, change, at)
    case Flush(at) => s.Flushed(at)
  }

  function Run(ops: seq<Op>): State {
    if ops == [] then State(map[], []) else Apply(Run(Front(ops)), Last(ops))
  }

  function Latest(ops: seq<Op>): Time {
    if ops == [] then 0 else Last(ops).at
  }

  predicate Timed(ops: seq<Op>) {
    ops == [] || (Timed(Front(ops)) && Latest(Front(ops)) <= Last(ops).at)
  }

  /** The changes of one group's target, in order. */
  function Changes(ops: seq<Op>, mac: Mac): seq<Change> {
    if ops == [] then []
    else Changes(Front(ops), mac) + if Last(ops).Record? && Last(ops).mac == mac then [Last(ops).change] else []
  }

  predicate Mentions(line: Line, mac: Mac) {
    if line.Overdue? then mac in line.notes else line.mac == mac
  }

  function NoteOf(line: Line, mac: Mac): Note
    requires Mentions(line, mac)
  {
    if line.Overdue? then line.notes[mac] else line.note
  }

  /** The lines about one group, in order. */
  function About(lines: seq<Line>, mac: Mac): seq<Line> {
    if lines == [] then [] else About(Front(lines), mac) + if Mentions(Last(lines), mac) then [Last(lines)] else []
  }

  function Accounts(line: Line, mac: Mac): nat {
    if Mentions(line, mac) then 1 + NoteOf(line, mac).held else 0
  }

  /** Changes the lines account for: each line's own and the earlier ones it counts. */
  function Accounted(lines: seq<Line>, mac: Mac): nat {
    if lines == [] then 0 else Accounted(Front(lines), mac) + Accounts(Last(lines), mac)
  }

  ghost predicate Spaced(about: seq<Line>) {
    forall i :: 0 <= i < |about| - 1 ==> about[i + 1].at - about[i].at >= 10 * SECOND
  }

  function EntryOf(s: State, mac: Mac): Option<Entry> {
    if mac in s.entries then Some(s.entries[mac]) else None
  }

  /** The change the log last took note of: the pending one, or the last line's. */
  ghost function NewestOf(entry: Option<Entry>, about: seq<Line>, mac: Mac): Option<Change> {
    if entry.Some? && entry.value.pending.Some? then entry.value.pending
    else if about != [] && Mentions(Last(about), mac) then Some(NoteOf(Last(about), mac).change)
    else None
  }

  ghost function Newest(s: State, mac: Mac): Option<Change> {
    NewestOf(EntryOf(s, mac), About(s.lines, mac), mac)
  }

  /** Everything the log promises about one group whose changes these are, at the instant `now`. */
  ghost predicate Keeps(entry: Option<Entry>, about: seq<Line>, accounted: nat, changes: seq<Change>,
                        mac: Mac, now: Time)
  {
    && Spaced(about)
    && |changes| == accounted + (if entry.Some? then entry.value.held else 0)
    && NewestOf(entry, about, mac) == (if changes == [] then None else Some(Last(changes)))
    && match entry
       case None => about == []
       case Some(e) =>
         && about != []
         && Mentions(Last(about), mac)
         && Last(about).at == e.loggedAt <= now
         && (e.pending.Some? <==> e.held > 0)
  }

  ghost predicate Sound(s: State, changes: seq<Change>, mac: Mac, now: Time) {
    Keeps(EntryOf(s, mac), About(s.lines, mac), Accounted(s.lines, mac), changes, mac, now)
  }

  /** A line about another group leaves this one's alone; one of its own joins the end. */
  lemma NewLine(lines: seq<Line>, line: Line, mac: Mac)
    ensures About(lines + [line], mac) == About(lines, mac) + (if Mentions(line, mac) then [line] else [])
    ensures Accounted(lines + [line], mac) == Accounted(lines, mac) + Accounts(line, mac)
  {
    assert Front(lines + [line]) == lines;
  }

  lemma RecordSound(s: State, changes: seq<Change>, mac: Mac, change: Change, before: Time, now: Time)
    requires Sound(s, changes, mac, before) && before <= now
    ensures Sound(s.Changed(mac, change, now), changes + [change], mac, now)
  {
    var held := if mac in s.entries then s.entries[mac].held else 0;
    NewLine(s.lines, Prompt(mac, Note(change, held), now), mac);
  }

  lemma RecordElsewhere(s: State, changes: seq<Change>, mac: Mac, other: Mac, change: Change, before: Time, now: Time)
    requires Sound(s, changes, mac, before) && before <= now && other != mac
    ensures Sound(s.Changed(other, change, now), changes, mac, now)
  {
    var held := if other in s.entries then s.entries[other].held else 0;
    var after := s.Changed(other, change, now);
    NewLine(s.lines, Prompt(other, Note(change, held), now), mac);
    assert EntryOf(after, mac) == EntryOf(s, mac);
    assert About(after.lines, mac) == About(s.lines, mac) && Accounted(after.lines, mac) == Accounted(s.lines, mac);
  }

  lemma FlushSound(s: State, changes: seq<Change>, mac: Mac, before: Time, now: Time)
    requires Sound(s, changes, mac, before) && before <= now
    ensures Sound(s.Flushed(now), changes, mac, now)
  {
    hide About, Accounted;
    NewLine(s.lines, Overdue(s.Due(now), now), mac);
    if s.Due(now) == map[] {
      assert mac !in s.Due(now);
    }
  }

  /**
    On every run, for every group: lines are ten seconds apart, every change is in a line or
    held, a change is pending exactly when some are held, and the newest is the latest change.
   */
  lemma {:induction false} RunSound(ops: seq<Op>, mac: Mac)
    requires Timed(ops)
    ensures Sound(Run(ops), Changes(ops, mac), mac, Latest(ops))
  {
    if ops != [] {
      RunSound(Front(ops), mac);
      var before, so, earlier := Run(Front(ops)), Changes(Front(ops), mac), Latest(Front(ops));
      match Last(ops) {
        case Record(m, change, at) =>
          if m == mac {
            RecordSound(before, so, mac, change, earlier, at);
          } else {
            RecordElsewhere(before, so, mac, m, change, earlier, at);
            assert so + [] == so;
          }
        case Flush(at) =>
          FlushSound(before, so, mac, earlier, at);
          assert so + [] == so;
      }
    }
  }

  /** A change is told at once, unless a line about the group was written less than ten seconds ago. */
  lemma ChangeIsToldIff(ops: seq<Op>, mac: Mac, change: Change, now: Time)
    requires Timed(ops) && Latest(ops) <= now
    ensures var about := About(Run(ops).lines, mac);
      var recent := about != [] && now - Last(about).at < 10 * SECOND;
      |About(Run(ops + [Record(mac, change, now)]).lines, mac)| == |about| + if recent then 0 else 1
  {
    hide About;
    RunSound(ops, mac);
    assert Front(ops + [Record(mac, change, now)]) == ops;
    var s := Run(ops);
    var held := if mac in s.entries then s.entries[mac].held else 0;
    NewLine(s.lines, Prompt(mac, Note(change, held), now), mac);
  }

  /** After a flush nothing pending is ten seconds old. */
  lemma FlushLeavesNothingRipe(s: State, now: Time)
    ensures s.Flushed(now).entries.Keys == s.entries.Keys
    ensures forall mac :: mac in s.entries && s.Flushed(now).entries[mac].pending.Some? ==>
      Since(now, s.Flushed(now).entries[mac].loggedAt) < 10 * SECOND
  {
  }
}
