/**
  The failure log: the first failure of a kind is written at once, repeats within a minute
  are counted and written with their count later.
 */
module FailLog {
  import opened Types

  /** Least time between two lines for the same failure text. */
  const REPEAT_LOG_EVERY: nat := 60 * SECOND

  /** What failed, with the error's own text. Different messages have different texts, as `FailText` shows. */
  datatype Message =
    | HeartbeatFailed(error: string)
    | PollFailed(error: string)
    | SendFailed(mac: Mac, error: string)
    | ReconnectFailed(everyChannel: bool, error: string, nextTry: nat)

  datatype Entry = Entry(loggedAt: Time, held: nat)

  /**
    One line; or all the lines one flush writes, which come in no particular order: the
    repeats of each message in it.
   */
  datatype Line =
    | Once(message: Message, at: Time)
    | Repeated(message: Message, repeats: nat, at: Time)
    | Overdue(counts: map<Message, nat>, at: Time)

  datatype State = State(entries: map<Message, Entry>, lines: seq<Line>) {

    function Failed(message: Message, now: Time): State {
      if message !in entries then
        State(entries[message := Entry(now, 0)], lines + [Once(message, now)])
      else
        var held := entries[message].held + 1;
        if Since(now, entries[message].loggedAt) >= REPEAT_LOG_EVERY then
          State(entries[message := Entry(now, 0)], lines + [Repeated(message, held, now)])
        else
          State(entries[message := entries[message].(held := held)], lines)
    }

    predicate Expired(message: Message, now: Time)
      requires message in entries
    {
      Since(now, entries[message].loggedAt) >= REPEAT_LOG_EVERY
    }

    function Due(now: Time): map<Message, nat> {
      map m | m in entries && Expired(m, now) && entries[m].held > 0 :: entries[m].held
    }

    function Flushed(now: Time): State {
      State(map m | m in entries && !Expired(m, now) :: entries[m],
            if Due(now) == map[] then lines else lines + [Overdue(Due(now), now)])
    }
  }

  datatype Op = Fail(message: Message, at: Time) | Flush(at: Time)

  function Apply(s: State, op: Op): State {
    match op
    case Fail(message, at) => s.Failed(message, at)
    case Flush(at) => s.Flushed(at)
  }

  function Run(ops: seq<Op>): State {
    if ops == [] then State(map[], []) else Apply(Run(Front(ops)), Last(ops))
  }

  function Latest(ops: seq<Op>): Time {
    if ops == [] then 0 else Last(ops).at
  }

  predicate Timed(ops: seq<Op>) {
    ops == [] || (Timed(Front(ops)) && Latest(Front(ops)) <= Last(ops).at)
  }

  /** How often a message failed. */
  function Calls(ops: seq<Op>, m: Message): nat {
    if ops == [] then 0
    else Calls(Front(ops), m) + if Last(ops).Fail? && Last(ops).message == m then 1 else 0
  }

  predicate Mentions(line: Line, m: Message) {
    if line.Overdue? then m in line.counts else line.message == m
  }

  /** How many failures of `m` a line accounts for. */
  function Accounts(line: Line, m: Message): nat {
    if !Mentions(line, m) then 0
    else match line
      case Once(_, _) => 1
      case Repeated(_, repeats, _) => repeats
      case Overdue(counts, _) => counts[m]
  }

  function Accounted(lines: seq<Line>, m: Message): nat {
    if lines == [] then 0 else Accounted(Front(lines), m) + Accounts(Last(lines), m)
  }

  function Held(entries: map<Message, Entry>, m: Message): nat {
    if m in entries then entries[m].held else 0
  }

  /** The lines about one message, in order. */
  function About(lines: seq<Line>, m: Message): seq<Line> {
    if lines == [] then [] else About(Front(lines), m) + if Mentions(Last(lines), m) then [Last(lines)] else []
  }

  lemma NewLine(lines: seq<Line>, line: Line, m: Message)
    ensures About(lines + [line], m) == About(lines, m) + (if Mentions(line, m) then [line] else [])
    ensures Accounted(lines + [line], m) == Accounted(lines, m) + Accounts(line, m)
  {
    assert Front(lines + [line]) == lines;
  }

  lemma FailAccounted(s: State, message: Message, now: Time, m: Message)
    ensures var after := s.Failed(message, now);
      Accounted(after.lines, m) + Held(after.entries, m)
      == Accounted(s.lines, m) + Held(s.entries, m) + if message == m then 1 else 0
  {
    var line := if message !in s.entries then Once(message, now)
                else Repeated(message, s.entries[message].held + 1, now);
    NewLine(s.lines, line, m);
  }

  lemma FlushAccounted(s: State, now: Time, m: Message)
    ensures var after := s.Flushed(now);
      Accounted(after.lines, m) + Held(after.entries, m) == Accounted(s.lines, m) + Held(s.entries, m)
  {
    NewLine(s.lines, Overdue(s.Due(now), now), m);
    if s.Due(now) == map[] {
      assert m !in s.Due(now);
    }
  }

  /** Conservation: every failure is in a line or still held, and in one of them only. */
  lemma {:induction false} EveryFailureIsAccountedFor(ops: seq<Op>, m: Message)
    ensures Calls(ops, m) == Accounted(Run(ops).lines, m) + Held(Run(ops).entries, m)
  {
    if ops != [] {
      EveryFailureIsAccountedFor(Front(ops), m);
      match Last(ops) {
        case Fail(message, at) => FailAccounted(Run(Front(ops)), message, at, m);
        case Flush(at) => FlushAccounted(Run(Front(ops)), at, m);
      }
    }
  }

  /** Only the line of a flush can be followed by another of its message within the minute, and never by a flush's. */
  ghost predicate Spaced(about: seq<Line>) {
    forall i :: 0 <= i < |about| - 1 ==>
      && about[i].at <= about[i + 1].at
      && (about[i].Overdue? ==> !about[i + 1].Overdue?)
      && (!about[i].Overdue? ==> about[i + 1].at - about[i].at >= 60 * SECOND)
  }

  /** What an entry, or its absence, says about the last line of its message. */
  ghost predicate EntryFits(entry: Option<Entry>, about: seq<Line>, now: Time) {
    && (about != [] ==> Last(about).at <= now)
    && match entry
       case Some(e) => about != [] && !Last(about).Overdue? && Last(about).at == e.loggedAt
       case None => about == [] || Last(about).Overdue? || now - Last(about).at >= 60 * SECOND
  }

  function EntryOf(s: State, m: Message): Option<Entry> {
    if m in s.entries then Some(s.entries[m]) else None
  }

  lemma SpacedGrows(about: seq<Line>, line: Line)
    requires Spaced(about)
    requires about != [] ==>
      && Last(about).at <= line.at
      && (Last(about).Overdue? ==> !line.Overdue?)
      && (!Last(about).Overdue? ==> line.at - Last(about).at >= 60 * SECOND)
    ensures Spaced(about + [line])
  {
  }

  ghost predicate Fits(s: State, m: Message, now: Time) {
    Spaced(About(s.lines, m)) && EntryFits(EntryOf(s, m), About(s.lines, m), now)
  }

  lemma FailFits(s: State, message: Message, m: Message, before: Time, now: Time)
    requires before <= now && Fits(s, m, before)
    ensures Fits(s.Failed(message, now), m, now)
  {
    hide About;
    var after := s.Failed(message, now);
    var line := if message !in s.entries then Once(message, now)
                else Repeated(message, s.entries[message].held + 1, now);
    NewLine(s.lines, line, m);
    if message != m {
      assert EntryOf(after, m) == EntryOf(s, m) && About(after.lines, m) == About(s.lines, m);
    } else if |after.lines| > |s.lines| {
      SpacedGrows(About(s.lines, m), line);
    }
  }

  lemma FlushFits(s: State, m: Message, before: Time, now: Time)
    requires before <= now && Fits(s, m, before)
    ensures Fits(s.Flushed(now), m, now)
  {
    var line := Overdue(s.Due(now), now);
    NewLine(s.lines, line, m);
    if m in s.Due(now) {
      SpacedGrows(About(s.lines, m), line);
    }
  }

  lemma {:induction false} RunFits(ops: seq<Op>, m: Message)
    requires Timed(ops)
    ensures Fits(Run(ops), m, Latest(ops))
  {
    if ops != [] {
      RunFits(Front(ops), m);
      match Last(ops) {
        case Fail(message, at) => FailFits(Run(Front(ops)), message, m, Latest(Front(ops)), at);
        case Flush(at) => FlushFits(Run(Front(ops)), m, Latest(Front(ops)), at);
      }
    }
  }

  /**
    A failure is told at once, unless the last line about it was written less than a minute ago and
    was not a flush's.
   */
  lemma FailureIsToldIff(ops: seq<Op>, m: Message, now: Time)
    requires Timed(ops) && Latest(ops) <= now
    ensures var about := About(Run(ops).lines, m);
      var recent := about != [] && !Last(about).Overdue? && now - Last(about).at < 60 * SECOND;
      |About(Run(ops + [Fail(m, now)]).lines, m)| == |about| + if recent then 0 else 1
  {
    hide About;
    RunFits(ops, m);
    assert Front(ops + [Fail(m, now)]) == ops;
    var s := Run(ops);
    var line := if m !in s.entries then Once(m, now) else Repeated(m, s.entries[m].held + 1, now);
    NewLine(s.lines, line, m);
  }

  lemma {:induction false} SpacedInOrder(about: seq<Line>, i: nat, j: nat)
    requires Spaced(about) && i <= j < |about|
    ensures about[i].at <= about[j].at
  {
    if i < j {
      SpacedInOrder(about, i, j - 1);
    }
  }

  /** Any three lines of one message span a minute at least. */
  lemma ThreeLinesSpanAMinute(ops: seq<Op>, m: Message, i: nat, j: nat, k: nat)
    requires Timed(ops) && i < j < k < |About(Run(ops).lines, m)|
    ensures About(Run(ops).lines, m)[k].at - About(Run(ops).lines, m)[i].at >= 60 * SECOND
  {
    var about := About(Run(ops).lines, m);
    RunFits(ops, m);
    SpacedInOrder(about, i + 2, k);
    assert about[i].at <= about[i + 1].at <= about[i + 1 + 1].at;
  }

  /** Two neighbouring lines are closer than a minute only when the first is a flush's. */
  lemma CloseLines(ops: seq<Op>, m: Message, i: nat)
    requires Timed(ops) && i + 1 < |About(Run(ops).lines, m)|
    requires About(Run(ops).lines, m)[i + 1].at - About(Run(ops).lines, m)[i].at < 60 * SECOND
    ensures About(Run(ops).lines, m)[i].Overdue? && !About(Run(ops).lines, m)[i + 1].Overdue?
  {
    RunFits(ops, m);
  }

  /** When a flush last wrote a count of `m`, if `m` has not failed since. */
  function CountedAt(ops: seq<Op>, m: Message): Option<Time> {
    if ops == [] then None
    else match Last(ops)
      case Fail(message, _) => if message == m then None else CountedAt(Front(ops), m)
      case Flush(at) => if m in Run(Front(ops)).Due(at) then Some(at) else CountedAt(Front(ops), m)
  }

  /** A failure of `m` at this instant comes less than a minute after a flush wrote its count. */
  predicate TooSoon(ops: seq<Op>, m: Message, at: Time) {
    CountedAt(ops, m).Some? && at - CountedAt(ops, m).value < 60 * SECOND
  }

  /** No failure of `m` came so soon. */
  predicate NeverTooSoon(ops: seq<Op>, m: Message) {
    ops == []
    || (NeverTooSoon(Front(ops), m)
        && !(Last(ops).Fail? && Last(ops).message == m && TooSoon(Front(ops), m, Last(ops).at)))
  }

  /** At most one line a minute. */
  ghost predicate MinuteApart(about: seq<Line>) {
    forall i :: 0 <= i < |about| - 1 ==> about[i + 1].at - about[i].at >= 60 * SECOND
  }

  lemma MinuteApartGrows(about: seq<Line>, line: Line)
    ensures MinuteApart(about + [line])
      <==> MinuteApart(about) && (about == [] || line.at - Last(about).at >= 60 * SECOND)
  {
    var more := about + [line];
    if MinuteApart(more) {
      forall i | 0 <= i < |about| - 1 ensures about[i + 1].at - about[i].at >= 60 * SECOND {
        assert more[i + 1].at - more[i].at >= 60 * SECOND;
      }
      if about != [] {
        assert more[|about| - 1 + 1].at - more[|about| - 1].at >= 60 * SECOND;
      }
    }
  }

  /** The last line is a flush's exactly if the flush's count is the last thing that happened to `m`. */
  ghost predicate CountFits(about: seq<Line>, counted: Option<Time>) {
    && (counted.Some? <==> about != [] && Last(about).Overdue?)
    && (counted.Some? ==> Last(about).at == counted.value)
  }

  lemma FailMinute(ops: seq<Op>, m: Message, message: Message, now: Time)
    requires Fits(Run(ops), m, Latest(ops)) && Latest(ops) <= now
    requires CountFits(About(Run(ops).lines, m), CountedAt(ops, m))
    ensures var after := About(Run(ops).Failed(message, now).lines, m);
      && CountFits(after, if message == m then None else CountedAt(ops, m))
      && (MinuteApart(after)
          <==> MinuteApart(About(Run(ops).lines, m)) && !(message == m && TooSoon(ops, m, now)))
  {
    hide Run, CountedAt, About, MinuteApart;
    var s, about := Run(ops), About(Run(ops).lines, m);
    assert about + [] == about;
    var line := if message !in s.entries then Once(message, now)
                else Repeated(message, s.entries[message].held + 1, now);
    NewLine(s.lines, line, m);
    MinuteApartGrows(About(s.lines, m), line);
  }

  lemma FlushMinute(ops: seq<Op>, m: Message, now: Time)
    requires Fits(Run(ops), m, Latest(ops)) && Latest(ops) <= now
    requires CountFits(About(Run(ops).lines, m), CountedAt(ops, m))
    ensures var after := About(Run(ops).Flushed(now).lines, m);
      && CountFits(after, if m in Run(ops).Due(now) then Some(now) else CountedAt(ops, m))
      && (MinuteApart(after) <==> MinuteApart(About(Run(ops).lines, m)))
  {
    hide Run, CountedAt, About, MinuteApart;
    var s, about := Run(ops), About(Run(ops).lines, m);
    assert about + [] == about;
    var line := Overdue(s.Due(now), now);
    NewLine(s.lines, line, m);
    MinuteApartGrows(About(s.lines, m), line);
    if s.Due(now) == map[] {
      assert m !in s.Due(now);
    }
  }

  lemma {:induction false} RunMinute(ops: seq<Op>, m: Message)
    requires Timed(ops)
    ensures CountFits(About(Run(ops).lines, m), CountedAt(ops, m))
    ensures MinuteApart(About(Run(ops).lines, m)) <==> NeverTooSoon(ops, m)
  {
    if ops != [] {
      hide About, MinuteApart, CountFits, Fits;
      RunMinute(Front(ops), m);
      RunFits(Front(ops), m);
      match Last(ops) {
        case Fail(message, at) => FailMinute(Front(ops), m, message, at);
        case Flush(at) => FlushMinute(Front(ops), m, at);
      }
    } else {
      assert About([], m) == [];
    }
  }

  /**
    When the promise of one line a minute is kept: on every run, neighbouring lines of one message
    are a minute apart if and only if it never failed less than a minute after a flush wrote its count.
   */
  lemma OneLineAMinuteIff(ops: seq<Op>, m: Message)
    requires Timed(ops)
    ensures MinuteApart(About(Run(ops).lines, m)) <==> NeverTooSoon(ops, m)
  {
    RunMinute(ops, m);
  }

  /** Four ticks at these instants, with a failure in the first, the second and the last. */
  function FourTicks(m: Message, second: Time, third: Time, fourth: Time): seq<Op> {
    [Fail(m, 0), Flush(0), Fail(m, second), Flush(second), Flush(third), Fail(m, fourth), Flush(fourth)]
  }

  lemma OneMore(ops: seq<Op>, op: Op)
    ensures Run(ops + [op]) == Apply(Run(ops), op)
    ensures Timed(ops + [op]) <==> Timed(ops) && Latest(ops) <= op.at
    ensures Latest(ops + [op]) == op.at
  {
    assert Front(ops + [op]) == ops;
  }

  /** A tick that fails and flushes, told step by step. */
  lemma FailingTick(ops: seq<Op>, m: Message, now: Time, failed: State)
    requires Timed(ops) && Latest(ops) <= now && failed == Run(ops).Failed(m, now)
    requires forall k :: k in failed.entries ==> Since(now, failed.entries[k].loggedAt) < 60 * SECOND
    ensures var after := ops + [Fail(m, now), Flush(now)];
      Timed(after) && Latest(after) == now && Run(after) == failed
  {
    var middle := ops + [Fail(m, now)];
    OneMore(ops, Fail(m, now));
    OneMore(middle, Flush(now));
    assert middle + [Flush(now)] == ops + [Fail(m, now), Flush(now)];
    FlushKeepsFresh(failed, now);
  }

  /** A flush that finds one message overdue. */
  lemma CountingFlush(ops: seq<Op>, m: Message, now: Time, entry: Entry)
    requires Timed(ops) && Latest(ops) <= now && Run(ops).entries == map[m := entry]
    requires entry.held > 0 && Since(now, entry.loggedAt) >= 60 * SECOND
    ensures var after := ops + [Flush(now)];
      && Timed(after) && Latest(after) == now
      && Run(after) == State(map[], Run(ops).lines + [Overdue(map[m := entry.held], now)])
      && CountedAt(after, m) == Some(now)
  {
    hide State.Flushed;
    var after := ops + [Flush(now)];
    assert Front(after) == ops;
    OneDue(Run(ops), m, now, entry);
    OneFlushed(Run(ops), m, now, entry);
  }

  lemma OneDue(s: State, m: Message, now: Time, entry: Entry)
    requires s.entries == map[m := entry] && entry.held > 0 && Since(now, entry.loggedAt) >= 60 * SECOND
    ensures s.Due(now) == map[m := entry.held]
  {
  }

  lemma OneFlushed(s: State, m: Message, now: Time, entry: Entry)
    requires s.entries == map[m := entry] && Since(now, entry.loggedAt) >= 60 * SECOND
    requires s.Due(now) == map[m := entry.held]
    ensures s.Flushed(now) == State(map[], s.lines + [Overdue(map[m := entry.held], now)])
  {
    hide State.Due;
    assert m in s.Due(now);
    forall k | k in s.entries ensures s.Expired(k, now) {
    }
  }

  /** A failure of `m` this soon after the count, then a flush. */
  lemma SoonFailure(ops: seq<Op>, m: Message, now: Time)
    requires TooSoon(ops, m, now)
    ensures !NeverTooSoon(ops + [Fail(m, now), Flush(now)], m)
  {
    var middle := ops + [Fail(m, now)];
    assert Front(middle) == ops && Front(ops + [Fail(m, now), Flush(now)]) == middle;
  }

  lemma FourTicksRun(m: Message, second: Time, third: Time, fourth: Time)
    requires second < 60 * SECOND <= third <= fourth < third + 60 * SECOND
    ensures var ops := FourTicks(m, second, third, fourth);
      && Timed(ops) && !NeverTooSoon(ops, m)
      && Run(ops).lines == [Once(m, 0), Overdue(map[m := 1], third), Once(m, fourth)]
  {
    hide State.Flushed, State.Due, CountedAt, NeverTooSoon;
    var two: seq<Op> := [Fail(m, 0), Flush(0)];
    var four := two + [Fail(m, second), Flush(second)];
    var five := four + [Flush(third)];
    assert [] + two == two;
    FailingTick([], m, 0, State(map[m := Entry(0, 0)], [Once(m, 0)]));
    FailingTick(two, m, second, State(map[m := Entry(0, 1)], [Once(m, 0)]));
    CountingFlush(four, m, third, Entry(0, 1));
    var counted := [Once(m, 0), Overdue(map[m := 1], third)];
    FailingTick(five, m, fourth, State(map[m := Entry(fourth, 0)], counted + [Once(m, fourth)]));
    SoonFailure(five, m, fourth);
    assert five + [Fail(m, fourth), Flush(fourth)] == FourTicks(m, second, third, fourth);
  }

  lemma FlushKeepsFresh(s: State, now: Time)
    requires forall m :: m in s.entries ==> Since(now, s.entries[m].loggedAt) < 60 * SECOND
    ensures s.Flushed(now) == s
  {
    assert s.Due(now) == map[];
    assert s.Flushed(now).entries == s.entries;
  }

  /** And it is not always kept: a count and a fresh first line can even come at one instant. */
  lemma TwoLinesCanCoincide(m: Message)
    ensures var ops := FourTicks(m, SECOND, 60 * SECOND, 60 * SECOND);
      && Timed(ops) && !NeverTooSoon(ops, m)
      && |About(Run(ops).lines, m)| == 3
      && About(Run(ops).lines, m)[1].at == About(Run(ops).lines, m)[2].at
  {
    FourTicksAbout(m, SECOND, 60 * SECOND, 60 * SECOND);
  }

  lemma FourTicksAbout(m: Message, second: Time, third: Time, fourth: Time)
    requires second < 60 * SECOND <= third <= fourth < third + 60 * SECOND
    ensures var ops := FourTicks(m, second, third, fourth);
      && Timed(ops) && !NeverTooSoon(ops, m)
      && About(Run(ops).lines, m) == [Once(m, 0), Overdue(map[m := 1], third), Once(m, fourth)]
  {
    hide Run, NeverTooSoon, Timed;
    FourTicksRun(m, second, third, fourth);
    var first, counted, last := Once(m, 0), Overdue(map[m := 1], third), Once(m, fourth);
    NewLine([], first, m);
    NewLine([first], counted, m);
    NewLine([first, counted], last, m);
    assert [first] == [] + [first] && [first, counted] == [first] + [counted];
    assert [first, counted, last] == [first, counted] + [last];
  }

  /** After a flush nothing kept is a minute old. */
  lemma FlushLeavesNothingOld(s: State, now: Time)
    ensures forall m ::
      m in s.Flushed(now).entries <==> m in s.entries && Since(now, s.entries[m].loggedAt) < 60 * SECOND
    ensures forall m :: m in s.Flushed(now).entries ==> s.Flushed(now).entries[m] == s.entries[m]
  {
  }
}
