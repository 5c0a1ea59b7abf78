/** The failure messages as texts: the log is keyed by text, and different failures have different ones. */
module FailText {
  import opened Types
  import opened FailLog
  import GroupText

  function Text(m: Message): string {
    match m
    case HeartbeatFailed(error) => "heartbeat: " + error
    case PollFailed(error) => "poll: " + error
    case SendFailed(mac, error) => GroupText.MacText(mac) + ": " + error
    case ReconnectFailed(everyChannel, error, nextTry) => Scope(everyChannel) + Tail(error, nextTry)
  }

  function Scope(everyChannel: bool): string {
    if everyChannel then "reconnect on every channel: " else "reconnect: "
  }

  function Tail(error: string, nextTry: nat): string {
    error + "; next try in " + GroupText.Decimal(nextTry) + " s"
  }

  lemma SameSplit(a: string, b: string, x: string, y: string)
    requires |a| == |x| && a + b == x + y
    ensures a == x && b == y
  {
    assert a == (a + b)[..|a|] && b == (a + b)[|a|..];
    assert x == (x + y)[..|x|] && y == (x + y)[|x|..];
  }

  predicate AllDigits(s: string) {
    forall i :: 0 <= i < |s| ==> GroupText.IsDecimal(s[i])
  }

  /** How many digits a text ends with. */
  function EndDigits(s: string): nat {
    if s == [] || !GroupText.IsDecimal(Last(s)) then 0 else 1 + EndDigits(Front(s))
  }

  lemma {:induction false} EndsAfterSpace(a: string, digits: string)
    requires a != [] && Last(a) == ' ' && AllDigits(digits)
    ensures EndDigits(a + digits) == |digits|
  {
    if digits == [] {
      assert a + digits == a;
    } else {
      assert Front(a + digits) == a + Front(digits);
      EndsAfterSpace(a, Front(digits));
    }
  }

  /** Digits after a space can be told from what comes before them. */
  lemma DigitsAreTheEnd(a: string, b: string, m: string, n: string)
    requires a != [] && b != [] && Last(a) == Last(b) == ' '
    requires AllDigits(m) && AllDigits(n) && a + m == b + n
    ensures a == b && m == n
  {
    EndsAfterSpace(a, m);
    EndsAfterSpace(b, n);
    assert |a + m| == |b + n|;
    SameSplit(a, m, b, n);
  }

  lemma TailsDiffer(a: string, m: nat, b: string, n: nat)
    requires Tail(a, m) == Tail(b, n)
    ensures a == b && m == n
  {
    GroupText.DecimalRoundTrip(m);
    GroupText.DecimalRoundTrip(n);
    var p, q := a + "; next try in ", b + "; next try in ";
    var dm, dn := GroupText.Decimal(m), GroupText.Decimal(n);
    assert |p + dm| == |q + dn|;
    SameSplit(p + dm, " s", q + dn, " s");
    DigitsAreTheEnd(p, q, dm, dn);
    SameSplit(a, "; next try in ", b, "; next try in ");
  }

  /** What kind of failure a text tells of, by its first character. */
  function Kind(c: char): nat {
    if c == 'h' then 0 else if c == 'p' then 1 else if c == 'r' then 3 else 2
  }

  lemma KindShows(m: Message)
    ensures Text(m) != []
    ensures Kind(Text(m)[0]) == match m
      case HeartbeatFailed(_) => 0
      case PollFailed(_) => 1
      case SendFailed(_, _) => 2
      case ReconnectFailed(_, _, _) => 3
  {
    match m {
      case HeartbeatFailed(error) => assert Text(m)[0] == 'h';
      case PollFailed(error) => assert Text(m)[0] == 'p';
      case SendFailed(mac, error) =>
        var first := GroupText.Digit(mac.b0 / 16);
        assert Text(m)[0] == GroupText.MacText(mac)[0] == first;
        assert GroupText.DigitValue(first).Some? by {
          GroupText.DigitRoundTrip(mac.b0 / 16);
        }
      case ReconnectFailed(everyChannel, error, nextTry) => assert Text(m)[0] == Scope(everyChannel)[0] == 'r';
    }
  }

  lemma MacTextLength(mac: Mac)
    ensures |GroupText.MacText(mac)| == 17
  {
  }

  /** Two failures share a line only if they are the same failure. */
  lemma TextsDiffer(a: Message, b: Message)
    ensures Text(a) == Text(b) <==> a == b
  {
    if Text(a) == Text(b) {
      hide GroupText.MacText, Tail;
      KindShows(a);
      KindShows(b);
      match a {
        case HeartbeatFailed(error) => SameSplit("heartbeat: ", error, "heartbeat: ", b.error);
        case PollFailed(error) => SameSplit("poll: ", error, "poll: ", b.error);
        case SendFailed(mac, error) =>
          MacTextLength(mac);
          MacTextLength(b.mac);
          SameSplit(GroupText.MacText(mac) + ": ", error, GroupText.MacText(b.mac) + ": ", b.error);
          SameSplit(GroupText.MacText(mac), ": ", GroupText.MacText(b.mac), ": ");
          GroupText.AddressesDiffer(mac, b.mac);
        case ReconnectFailed(everyChannel, error, nextTry) =>
          assert Text(a)[9] == if everyChannel then ' ' else ':';
          assert Text(b)[9] == if b.everyChannel then ' ' else ':';
          SameSplit(Scope(everyChannel), Tail(error, nextTry), Scope(b.everyChannel), Tail(b.error, b.nextTry));
          TailsDiffer(error, nextTry, b.error, b.nextTry);
      }
    }
  }
}
