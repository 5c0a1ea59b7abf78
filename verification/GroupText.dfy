/** The remembered-groups file as text: one line per group, its address and its fan count. */
module GroupText {
  import opened Types

  /** A group as it is remembered. */
  datatype Known = Known(mac: Mac, fans: int)

  // Text, as the platform's library takes it apart.

  /** Characters before the first that stops the scan. */
  function Reach(s: string, stops: char -> bool): (n: nat)
    ensures n <= |s|
  {
    if s == [] || stops(s[0]) then 0 else 1 + Reach(s[1..], stops)
  }

  lemma {:induction false} ReachPast(word: string, rest: string, stops: char -> bool)
    requires forall i :: 0 <= i < |word| ==> !stops(word[i])
    requires rest == [] || stops(rest[0])
    ensures Reach(word + rest, stops) == |word|
  {
    if word == [] {
      assert word + rest == rest;
    } else {
      assert (word + rest)[1..] == word[1..] + rest;
      ReachPast(word[1..], rest, stops);
    }
  }

  predicate IsWhite(c: char) {
    '\t' <= c <= '\r' || c == ' ' || c == '\U{85}' || c == '\U{A0}' || c == '\U{1680}' || '\U{2000}' <= c <= '\U{200A}'
    || c == '\U{2028}' || c == '\U{2029}' || c == '\U{202F}' || c == '\U{205F}' || c == '\U{3000}'
  }

  function TrimStart(s: string): string {
    if s != [] && IsWhite(s[0]) then TrimStart(s[1..]) else s
  }

  function TrimEnd(s: string): string {
    if s != [] && IsWhite(Last(s)) then TrimEnd(Front(s)) else s
  }

  function Trim(s: string): string {
    TrimEnd(TrimStart(s))
  }

  predicate IsBlank(c: char) {
    c == ' ' || c == '\t'
  }

  /** The words between blanks, none of them empty. */
  function Words(s: string): seq<string>
    decreases |s|
  {
    if s == [] then []
    else if IsBlank(s[0]) then Words(s[1..])
    else
      var n := Reach(s, IsBlank);
      [s[..n]] + Words(s[n..])
  }

  predicate IsColon(c: char) {
    c == ':'
  }

  /** The parts between colons, empty ones included. */
  function Parts(s: string): seq<string>
    decreases |s|
  {
    var n := Reach(s, IsColon);
    if n == |s| then [s] else [s[..n]] + Parts(s[n + 1..])
  }

  predicate EndsLine(c: char) {
    c == '\n' || c == '\r'
  }

  /** The lines of a file, ended by a line feed, a carriage return, or one of each. */
  function Lines(s: string): seq<string>
    decreases |s|
  {
    if s == [] then []
    else
      var n := Reach(s, EndsLine);
      if n == |s| then [s]
      else if s[n] == '\r' && n + 1 < |s| && s[n + 1] == '\n' then [s[..n]] + Lines(s[n + 2..])
      else [s[..n]] + Lines(s[n + 1..])
  }

  // Numbers.

  const DIGITS: string := "0123456789abcdef"

  function Digit(n: nat): char
    requires n < 16
  {
    DIGITS[n]
  }

  /** The value of a hexadecimal digit of either case. */
  function DigitValue(c: char): Option<nat> {
    if '0' <= c <= '9' then Some(c as int - '0' as int)
    else if 'a' <= c <= 'f' then Some(c as int - 'a' as int + 10)
    else if 'A' <= c <= 'F' then Some(c as int - 'A' as int + 10)
    else None
  }

  lemma DigitRoundTrip(n: nat)
    requires n < 16
    ensures DigitValue(Digit(n)) == Some(n)
    ensures !IsWhite(Digit(n)) && !IsBlank(Digit(n)) && !IsColon(Digit(n)) && !EndsLine(Digit(n))
    ensures n < 10 ==> IsDecimal(Digit(n)) && DecimalValue(Digit(n)) == n
  {
  }

  predicate IsDecimal(c: char) {
    '0' <= c <= '9'
  }

  /** White space as number parsing takes it. */
  predicate IsNumberWhite(c: char) {
    '\t' <= c <= '\r' || c == ' '
  }

  /** A byte of two characters: two digits, or one with white before it or white or a null after it. */
  function HexByte(part: string): Option<Byte> {
    if |part| != 2 then None
    else
      var high, low := DigitValue(part[0]), DigitValue(part[1]);
      if high.Some? && low.Some? && high.value < 16 && low.value < 16 then Some(high.value * 16 + low.value)
      else if IsNumberWhite(part[0]) && low.Some? then Some(low.value)
      else if high.Some? && (IsNumberWhite(part[1]) || part[1] == '\0') then Some(high.value)
      else None
  }

  function HexText(b: Byte): string {
    [Digit(b / 16), Digit(b % 16)]
  }

  lemma HexRoundTrip(b: Byte)
    ensures HexByte(HexText(b)) == Some(b)
  {
    DigitRoundTrip(b / 16);
    DigitRoundTrip(b % 16);
  }

  function DecimalValue(c: char): nat
    requires IsDecimal(c)
  {
    c as int - '0' as int
  }

  function Value(digits: string): nat
    requires forall i :: 0 <= i < |digits| ==> IsDecimal(digits[i])
  {
    if digits == [] then 0 else Value(Front(digits)) * 10 + DecimalValue(Last(digits))
  }

  predicate IsNotDecimal(c: char) {
    !IsDecimal(c)
  }

  lemma {:induction false} ReachedAreDecimal(s: string)
    ensures forall i :: 0 <= i < Reach(s, IsNotDecimal) ==> IsDecimal(s[i])
  {
    if s != [] && IsDecimal(s[0]) {
      ReachedAreDecimal(s[1..]);
      forall i | 0 < i < Reach(s, IsNotDecimal) ensures IsDecimal(s[i]) {
        assert s[i] == s[1..][i - 1];
      }
    }
  }

  /** A count: digits, then nothing but nulls. */
  function Count(s: string): Option<nat> {
    var n := Reach(s, IsNotDecimal);
    ReachedAreDecimal(s);
    if n == 0 || exists i :: n <= i < |s| && s[i] != '\0' then None else Some(Value(s[..n]))
  }

  function Decimal(n: nat): string {
    if n < 10 then [Digit(n)] else Decimal(n / 10) + [Digit(n % 10)]
  }

  lemma {:induction false} DecimalRoundTrip(n: nat)
    ensures Decimal(n) != []
    ensures forall i :: 0 <= i < |Decimal(n)| ==> IsDecimal(Decimal(n)[i])
    ensures Value(Decimal(n)) == n
    decreases n
  {
    DigitRoundTrip(n % 10);
    if n >= 10 {
      DecimalRoundTrip(n / 10);
      assert Front(Decimal(n)) == Decimal(n / 10);
    } else {
      assert Front(Decimal(n)) == [];
    }
  }

  lemma CountRoundTrip(n: nat)
    ensures Count(Decimal(n)) == Some(n)
  {
    DecimalRoundTrip(n);
    assert Decimal(n) + [] == Decimal(n);
    ReachPast(Decimal(n), [], IsNotDecimal);
    assert Decimal(n)[..|Decimal(n)|] == Decimal(n);
  }

  // Addresses.

  /** An address as colon-separated lower-case hexadecimal. */
  function MacText(mac: Mac): string {
    HexText(mac.b0) + ":" + HexText(mac.b1) + ":" + HexText(mac.b2) + ":"
    + HexText(mac.b3) + ":" + HexText(mac.b4) + ":" + HexText(mac.b5)
  }

  function MacOf(text: string): Option<Mac> {
    var parts := Parts(text);
    if |parts| != 6 then None
    else
      var b0, b1, b2 := HexByte(parts[0]), HexByte(parts[1]), HexByte(parts[2]);
      var b3, b4, b5 := HexByte(parts[3]), HexByte(parts[4]), HexByte(parts[5]);
      if b0.None? || b1.None? || b2.None? || b3.None? || b4.None? || b5.None? then None
      else Some(Mac(b0.value, b1.value, b2.value, b3.value, b4.value, b5.value))
  }

  /** Reads the six parts one after the other, giving up at the first that is no byte. */
  method ParseMac(text: string) returns (mac: Option<Mac>)
    ensures mac == MacOf(text)
  {
    var parts := Parts(text);
    if |parts| != 6 {
      return None;
    }
    var bytes := new Byte[6](_ => 0);
    for i := 0 to 6
      invariant forall k :: 0 <= k < i ==> HexByte(parts[k]) == Some(bytes[k])
    {
      var byte := HexByte(parts[i]);
      if byte.None? {
        return None;
      }
      bytes[i] := byte.value;
    }
    mac := Some(Mac(bytes[0], bytes[1], bytes[2], bytes[3], bytes[4], bytes[5]));
  }

  predicate PlainText(s: string) {
    forall i :: 0 <= i < |s| ==> !IsWhite(s[i]) && !IsBlank(s[i]) && !EndsLine(s[i])
  }

  lemma HexIsPlain(b: Byte)
    ensures |HexText(b)| == 2 && PlainText(HexText(b))
    ensures forall i :: 0 <= i < 2 ==> !IsColon(HexText(b)[i])
  {
    DigitRoundTrip(b / 16);
    DigitRoundTrip(b % 16);
  }

  lemma PartsStep(b: Byte, rest: string)
    ensures Parts(HexText(b) + ":" + rest) == [HexText(b)] + Parts(rest)
    ensures Parts(HexText(b)) == [HexText(b)]
  {
    HexIsPlain(b);
    var text := HexText(b) + (":" + rest);
    assert text == HexText(b) + ":" + rest;
    ReachPast(HexText(b), ":" + rest, IsColon);
    assert text[..2] == HexText(b) && text[3..] == rest;
    assert HexText(b) + [] == HexText(b);
    ReachPast(HexText(b), [], IsColon);
  }

  lemma MacRoundTrip(mac: Mac)
    ensures MacOf(MacText(mac)) == Some(mac)
  {
    hide Parts, HexByte, HexText;
    var five := HexText(mac.b5);
    var four := HexText(mac.b4) + ":" + five;
    var three := HexText(mac.b3) + ":" + four;
    var two := HexText(mac.b2) + ":" + three;
    var one := HexText(mac.b1) + ":" + two;
    assert MacText(mac) == HexText(mac.b0) + ":" + one;
    PartsStep(mac.b0, one);
    PartsStep(mac.b1, two);
    PartsStep(mac.b2, three);
    PartsStep(mac.b3, four);
    PartsStep(mac.b4, five);
    PartsStep(mac.b5, []);
    HexRoundTrip(mac.b0);
    HexRoundTrip(mac.b1);
    HexRoundTrip(mac.b2);
    HexRoundTrip(mac.b3);
    HexRoundTrip(mac.b4);
    HexRoundTrip(mac.b5);
  }

  lemma MacTextIsPlain(mac: Mac)
    ensures MacText(mac) != [] && PlainText(MacText(mac))
  {
    HexIsPlain(mac.b0);
    HexIsPlain(mac.b1);
    HexIsPlain(mac.b2);
    HexIsPlain(mac.b3);
    HexIsPlain(mac.b4);
    HexIsPlain(mac.b5);
  }

  /** Different addresses have different texts, so comparing texts compares addresses. */
  lemma AddressesDiffer(a: Mac, b: Mac)
    ensures MacText(a) == MacText(b) <==> a == b
  {
    MacRoundTrip(a);
    MacRoundTrip(b);
  }

  // One line.

  function LineText(k: Known): string
    requires k.fans >= 0
  {
    MacText(k.mac) + " " + Decimal(k.fans)
  }

  predicate IsFanCount(fans: int) {
    1 <= fans <= FANS_PER_GROUP
  }

  /** Reads one line, an address and a count from 1 to 4; anything else is nothing. */
  function LineIn(line: string): Option<Known> {
    var words := Words(Trim(line));
    if |words| != 2 then None
    else
      var mac, fans := MacOf(words[0]), Count(words[1]);
      if mac.None? || fans.None? || !IsFanCount(fans.value) then None else Some(Known(mac.value, fans.value))
  }

  lemma TrimKeeps(s: string)
    requires s != [] && !IsWhite(s[0]) && !IsWhite(Last(s))
    ensures Trim(s) == s
  {
  }

  lemma TwoWords(a: string, b: string)
    requires a != [] && b != [] && PlainText(a) && PlainText(b)
    ensures Words(a + " " + b) == [a, b]
  {
    var text := a + (" " + b);
    assert text == a + " " + b;
    ReachPast(a, " " + b, IsBlank);
    assert text[0] == a[0] && text[..|a|] == a && text[|a|..] == " " + b && (" " + b)[1..] == b;
    assert b + [] == b;
    ReachPast(b, [], IsBlank);
    assert b[..|b|] == b && b[|b|..] == [];
    assert Words(b) == [b];
    assert Words(" " + b) == [b];
    assert !IsBlank(a[0]) && Words(text) == [a] + Words(" " + b);
  }

  lemma DecimalIsPlain(n: nat)
    ensures Decimal(n) != [] && PlainText(Decimal(n))
  {
    DecimalRoundTrip(n);
  }

  lemma LineShape(k: Known)
    requires k.fans >= 0
    ensures var line := LineText(k);
      && line != [] && !IsWhite(line[0]) && !IsWhite(Last(line))
      && forall i :: 0 <= i < |line| ==> !EndsLine(line[i])
  {
    MacTextIsPlain(k.mac);
    DecimalIsPlain(k.fans);
    assert Last(LineText(k)) == Last(Decimal(k.fans));
  }

  /** A line written is read back, unless its count is one the reader rejects. */
  lemma LineRoundTrip(k: Known)
    requires k.fans >= 0
    ensures LineIn(LineText(k)) == if IsFanCount(k.fans) then Some(k) else None
  {
    hide Trim, Words, MacOf, Count, MacText, Decimal;
    LineShape(k);
    TrimKeeps(LineText(k));
    MacTextIsPlain(k.mac);
    DecimalIsPlain(k.fans);
    TwoWords(MacText(k.mac), Decimal(k.fans));
    MacRoundTrip(k.mac);
    CountRoundTrip(k.fans);
  }

  // The file.

  ghost predicate Countable(list: seq<Known>) {
    forall i :: 0 <= i < |list| ==> list[i].fans >= 0
  }

  function FileText(list: seq<Known>): string
    requires Countable(list)
  {
    if list == [] then [] else LineText(list[0]) + "\n" + FileText(list[1..])
  }

  /** The first entry of an address stands. */
  predicate Lists(list: seq<Known>, mac: Mac) {
    exists i :: 0 <= i < |list| && list[i].mac == mac
  }

  function Added(list: seq<Known>, line: string): seq<Known> {
    var k := LineIn(line);
    if k.Some? && !Lists(list, k.value.mac) then list + [k.value] else list
  }

  function ListOf(lines: seq<string>): seq<Known> {
    if lines == [] then [] else Added(ListOf(Front(lines)), Last(lines))
  }

  /** What a file says. */
  function ListIn(text: string): seq<Known> {
    ListOf(Lines(text))
  }

  function LineTexts(list: seq<Known>): seq<string>
    requires Countable(list)
  {
    seq(|list|, i requires 0 <= i < |list| => LineText(list[i]))
  }

  lemma {:induction false} LinesOfFile(list: seq<Known>)
    requires Countable(list)
    ensures Lines(FileText(list)) == LineTexts(list)
  {
    if list != [] {
      var line, rest := LineText(list[0]), FileText(list[1..]);
      LinesOfFile(list[1..]);
      LineShape(list[0]);
      FirstLine(line, rest);
      assert LineTexts(list) == [line] + LineTexts(list[1..]);
    }
  }

  lemma FirstLine(line: string, rest: string)
    requires forall i :: 0 <= i < |line| ==> !EndsLine(line[i])
    ensures Lines(line + "\n" + rest) == [line] + Lines(rest)
  {
    var text := line + ("\n" + rest);
    assert text == line + "\n" + rest;
    ReachPast(line, "\n" + rest, EndsLine);
    assert text[..|line|] == line && text[|line|] == '\n' && text[|line| + 1..] == rest;
  }

  ghost predicate DistinctMacs(list: seq<Known>) {
    forall i, j :: 0 <= i < j < |list| ==> list[i].mac != list[j].mac
  }

  /** The entries a reader accepts. */
  function Readable(list: seq<Known>): seq<Known> {
    if list == [] then [] else Readable(Front(list)) + if IsFanCount(Last(list).fans) then [Last(list)] else []
  }

  lemma {:induction false} ReadableMembers(list: seq<Known>)
    ensures forall k :: k in Readable(list) ==> k in list && IsFanCount(k.fans)
  {
    if list != [] {
      ReadableMembers(Front(list));
    }
  }

  lemma {:induction false} ListOfLines(list: seq<Known>)
    requires Countable(list) && DistinctMacs(list)
    ensures ListOf(LineTexts(list)) == Readable(list)
  {
    if list != [] {
      hide LineIn, LineText;
      ListOfLines(Front(list));
      assert Front(LineTexts(list)) == LineTexts(Front(list));
      LineRoundTrip(Last(list));
      ReadableMembers(Front(list));
      var before := Readable(Front(list));
      forall i | 0 <= i < |before| ensures before[i].mac != Last(list).mac {
        assert before[i] in Front(list);
      }
    }
  }

  lemma {:induction false} AllReadable(list: seq<Known>)
    ensures Readable(list) == list <==> forall i :: 0 <= i < |list| ==> IsFanCount(list[i].fans)
    ensures |Readable(list)| <= |list|
  {
    if list != [] {
      AllReadable(Front(list));
      assert list == Front(list) + [Last(list)];
    }
  }

  /**
    Round trip: reading what was written of a list gives its entries with a count from 1 to 4 back,
    in order; so it gives the list back exactly when all its counts are from 1 to 4.
   */
  lemma FileRoundTrip(list: seq<Known>)
    requires Countable(list) && DistinctMacs(list)
    ensures ListIn(FileText(list)) == Readable(list)
    ensures ListIn(FileText(list)) == list <==> forall i :: 0 <= i < |list| ==> IsFanCount(list[i].fans)
  {
    LinesOfFile(list);
    ListOfLines(list);
    AllReadable(list);
  }

  /** Whatever a file holds, what is read of it lists no address twice and only counts from 1 to 4. */
  lemma {:induction false} ReadIsClean(lines: seq<string>)
    ensures DistinctMacs(ListOf(lines))
    ensures forall i :: 0 <= i < |ListOf(lines)| ==> IsFanCount(ListOf(lines)[i].fans)
  {
    if lines != [] {
      ReadIsClean(Front(lines));
    }
  }
}
