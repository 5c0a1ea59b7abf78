/** The 64-byte frames exchanged with the dongles, and the radio payloads four of them carry. */
module Frame {
  import opened Types
  import opened Seqs
  import opened Radio

  const FRAME_LEN: nat := 64
  const RF_PAYLOAD_LEN: nat := 240
  const RF_CHUNK_LEN: nat := 60
  const RF_CHUNKS: nat := 4
  const DEFAULT_CHANNEL: Byte := 8
  const RECORDS_PER_PAGE: nat := 10
  const PAGE_LEN: nat := 512
  const MAX_PAGES: Byte := 26

  const SEND_RF: Byte := 0x10
  const GET_MAC: Byte := 0x11
  const SELECT: Byte := 0x12
  const PWM: Byte := 0x10

  function Zeros(n: nat): (zeros: seq<Byte>)
    ensures |zeros| == n
  {
    seq(n, _ => 0)
  }

  type Frame = f: seq<Byte> | |f| == FRAME_LEN witness Zeros(FRAME_LEN)
  type RfPayload = p: seq<Byte> | |p| == RF_PAYLOAD_LEN witness Zeros(RF_PAYLOAD_LEN)

  function MacBytes(mac: Mac): (bytes: seq<Byte>)
    ensures |bytes| == 6
  {
    [mac.b0, mac.b1, mac.b2, mac.b3, mac.b4, mac.b5]
  }

  function MacAt(bytes: seq<Byte>, at: nat): Mac
    requires at + 6 <= |bytes|
  {
    Mac(bytes[at], bytes[at + 1], bytes[at + 2], bytes[at + 3], bytes[at + 4], bytes[at + 5])
  }

  // A speed command as a radio payload.

  /** The bytes of a speed command. */
  function PayloadBytes(c: Command): RfPayload {
    [SELECT, PWM] + MacBytes(c.mac) + MacBytes(c.masterMac) + [c.receiver, c.channel, c.slot] + c.duty + Zeros(219)
  }

  /** The command a payload holds, if it is a speed command. */
  function CommandIn(p: RfPayload): Option<Command> {
    if p[0] == SELECT && p[1] == PWM then
      Some(Command(MacAt(p, 2), MacAt(p, 8), p[14], p[15], p[16], p[17..21]))
    else None
  }

  /** Fills a payload field by field. */
  method Payload(c: Command) returns (payload: RfPayload)
    ensures payload == PayloadBytes(c)
  {
    var data := new Byte[RF_PAYLOAD_LEN](_ => 0);
    FillAddresses(data, c);
    data[14], data[15], data[16] := c.receiver, c.channel, c.slot;
    CopyInto(data, 17, c.duty);
    payload := data[..];
    assert payload[..14] == PayloadBytes(c)[..14];
    assert payload[14..] == PayloadBytes(c)[14..];
    assert payload == payload[..14] + payload[14..];
  }

  method FillAddresses(data: array<Byte>, c: Command)
    requires data.Length == RF_PAYLOAD_LEN
    modifies data
    ensures data[..14] == [SELECT, PWM] + MacBytes(c.mac) + MacBytes(c.masterMac)
    ensures forall k :: 14 <= k < RF_PAYLOAD_LEN ==> data[k] == old(data[k])
  {
    data[0], data[1] := SELECT, PWM;
    CopyInto(data, 2, MacBytes(c.mac));
    CopyInto(data, 8, MacBytes(c.masterMac));
  }

  method CopyInto(data: array<Byte>, at: nat, bytes: seq<Byte>)
    requires at + |bytes| <= data.Length
    modifies data
    ensures forall k :: 0 <= k < data.Length ==>
      data[k] == if at <= k < at + |bytes| then bytes[k - at] else old(data[k])
  {
    for i := 0 to |bytes|
      invariant forall k :: 0 <= k < data.Length ==>
        data[k] == if at <= k < at + i then bytes[k - at] else old(data[k])
    {
      data[at + i] := bytes[i];
    }
  }

  // Four frames carry one payload.

  function FrameFor(index: nat, channel: Byte, receiver: Byte, payload: RfPayload): Frame
    requires index < RF_CHUNKS
  {
    [SEND_RF, index, channel, receiver] + payload[index * RF_CHUNK_LEN..(index + 1) * RF_CHUNK_LEN]
  }

  /** The frames that carry a payload to the transmitter. */
  function Frames(channel: Byte, receiver: Byte, payload: RfPayload): (frames: seq<Frame>)
    ensures |frames| == RF_CHUNKS
  {
    seq(RF_CHUNKS, i requires 0 <= i < RF_CHUNKS => FrameFor(i, channel, receiver, payload))
  }

  method RfFrames(channel: Byte, receiver: Byte, payload: RfPayload) returns (frames: seq<Frame>)
    ensures frames == Frames(channel, receiver, payload)
  {
    frames := [];
    for index := 0 to RF_CHUNKS
      invariant |frames| == index
      invariant forall i :: 0 <= i < index ==> frames[i] == FrameFor(i, channel, receiver, payload)
    {
      var frame := new Byte[FRAME_LEN](_ => 0);
      frame[0], frame[1], frame[2], frame[3] := SEND_RF, index, channel, receiver;
      CopyInto(frame, 4, payload[index * RF_CHUNK_LEN..(index + 1) * RF_CHUNK_LEN]);
      assert frame[..] == FrameFor(index, channel, receiver, payload);
      frames := frames + [frame[..]];
    }
  }

  /** What a run of frames carries after their headers. */
  function Carried(frames: seq<Frame>): (bytes: seq<Byte>)
    ensures |bytes| == RF_CHUNK_LEN * |frames|
  {
    if frames == [] then [] else Carried(Front(frames)) + Last(frames)[4..]
  }

  lemma {:induction false} CarriedSoFar(channel: Byte, receiver: Byte, payload: RfPayload, n: nat)
    requires n <= RF_CHUNKS
    ensures Carried(Frames(channel, receiver, payload)[..n]) == payload[..n * RF_CHUNK_LEN]
  {
    if n > 0 {
      CarriedSoFar(channel, receiver, payload, n - 1);
      assert Front(Frames(channel, receiver, payload)[..n]) == Frames(channel, receiver, payload)[..n - 1];
    }
  }

  /** What goes out over the wire is the command: the frames, put together, hold it and nothing is lost. */
  lemma CommandSurvivesTheWire(channel: Byte, receiver: Byte, c: Command)
    ensures var frames := Frames(channel, receiver, PayloadBytes(c));
      && Carried(frames) == PayloadBytes(c)
      && CommandIn(Carried(frames)) == Some(c)
      && forall i :: 0 <= i < RF_CHUNKS ==>
           frames[i][0] == SEND_RF && frames[i][1] == i && frames[i][2] == channel && frames[i][3] == receiver
  {
    var payload := PayloadBytes(c);
    var frames := Frames(channel, receiver, payload);
    CarriedSoFar(channel, receiver, payload, RF_CHUNKS);
    assert frames[..RF_CHUNKS] == frames && payload[..RF_CHUNKS * RF_CHUNK_LEN] == payload;
    PayloadHolds(c);
  }

  lemma PayloadHolds(c: Command)
    ensures CommandIn(PayloadBytes(c)) == Some(c)
  {
    assert PayloadBytes(c)[17..21] == c.duty;
  }

  // Discovery.

  function ClampedPages(pages: Byte): (p: Byte)
    ensures 1 <= p <= MAX_PAGES
  {
    Max(1, Min(pages, MAX_PAGES))
  }

  function DiscoveryRequest(pages: Byte): Frame {
    [SEND_RF, ClampedPages(pages)] + Zeros(FRAME_LEN - 2)
  }

  /** How many bytes a discovery reply of `pages` pages can occupy. */
  function DiscoveryReplyLen(pages: Byte): nat {
    ClampedPages(pages) * PAGE_LEN
  }

  /** How many pages the receiver needs to report `devices` devices: the fewest that can, and one at least. */
  function PagesFor(devices: Byte): (pages: Byte)
    ensures 1 <= pages <= MAX_PAGES
    ensures devices <= pages * RECORDS_PER_PAGE
    ensures pages > 1 ==> (pages - 1) * RECORDS_PER_PAGE < devices
  {
    Max((devices + RECORDS_PER_PAGE - 1) / RECORDS_PER_PAGE, 1)
  }

  // Connecting.

  datatype ConnectReply = ConnectReply(masterMac: Mac, firmware: Word)

  function ConnectRequest(channel: Byte): Frame {
    [GET_MAC, channel] + Zeros(FRAME_LEN - 2)
  }

  /** The number these bytes spell, the first the most significant. */
  function BigEndian(bytes: seq<Byte>): nat {
    if bytes == [] then 0 else BigEndian(Front(bytes)) * 256 + Last(bytes)
  }

  function WordAt(bytes: seq<Byte>, at: nat): Word
    requires at + 2 <= |bytes|
  {
    var high, low: int := bytes[at], bytes[at + 1];
    high * 256 + low
  }

  /** The transmitter's answer; none if it is short, malformed or says the dongle is not on that channel. */
  function ParseConnectReply(reply: seq<Byte>): Option<ConnectReply> {
    if |reply| < 13 || reply[0] != GET_MAC then None
    else if MacAt(reply, 1) == NO_MAC then None
    else if BigEndian(reply[7..11]) <= 1 then None
    else Some(ConnectReply(MacAt(reply, 1), WordAt(reply, 11)))
  }

  function Range(from: Byte, to: Byte): seq<Byte>
    requires from <= to
  {
    seq(to - from, i requires 0 <= i < to - from => from + i)
  }

  lemma RangeHolds(from: Byte, to: Byte)
    requires from <= to
    ensures Distinct(Range(from, to))
    ensures forall c :: c in Range(from, to) <==> from <= c < to
  {
    forall c: Byte | from <= c < to ensures c in Range(from, to) {
      assert Range(from, to)[c - from] == c;
    }
  }

  predicate IsOtherEven(channel: Byte) {
    channel % 2 == 0 && channel != DEFAULT_CHANNEL
  }

  predicate IsOdd(channel: Byte) {
    channel % 2 == 1
  }

  /** The channels to try: the default, then the even ones, then the odd ones. */
  function ChannelScan(): seq<Byte> {
    [DEFAULT_CHANNEL] + Filter(Range(2, 39), IsOtherEven) + Filter(Range(1, 40), IsOdd)
  }

  function ConnectAttempts(channel: Byte): nat {
    if channel == DEFAULT_CHANNEL then 3 else 1
  }

  /** Every channel from 1 to 39 is tried, none twice. */
  lemma ScanCoversEveryChannel()
    ensures Distinct(ChannelScan())
    ensures forall c :: c in ChannelScan() <==> 1 <= c <= 39
  {
    hide Range, Filter;
    var even, odd := Filter(Range(2, 39), IsOtherEven), Filter(Range(1, 40), IsOdd);
    RangeHolds(2, 39);
    RangeHolds(1, 40);
    FilterMembers(Range(2, 39), IsOtherEven);
    FilterMembers(Range(1, 40), IsOdd);
    FilterDistinct(Range(2, 39), IsOtherEven);
    FilterDistinct(Range(1, 40), IsOdd);
    DistinctJoin([DEFAULT_CHANNEL], even);
    DistinctJoin([DEFAULT_CHANNEL] + even, odd);
  }

  lemma ScanStarts()
    ensures ChannelScan() != [] && ChannelScan()[0] == 8
  {
  }

  ghost predicate Rising(channels: seq<Byte>) {
    forall i, j :: 0 <= i < j < |channels| ==> channels[i] < channels[j]
  }

  lemma KeptOfRange(from: Byte, to: Byte, keep: Byte -> bool)
    requires from <= to
    ensures var kept := Filter(Range(from, to), keep);
      Rising(kept) && forall i :: 0 <= i < |kept| ==> keep(kept[i])
  {
    var kept := Filter(Range(from, to), keep);
    FilterMembers(Range(from, to), keep);
    assert forall i :: 0 <= i < |kept| ==> kept[i] in kept;
    forall i, j | 0 <= i < j < |kept| ensures kept[i] < kept[j] {
      var a, b := FilterEmbeds(Range(from, to), keep, i, j);
    }
  }

  /** The order of these channels: after the first the even ones, then the odd ones, each ascending. */
  ghost predicate InScanOrder(channels: seq<Byte>) {
    forall i, j :: 0 < i < j < |channels| ==>
      if channels[i] % 2 == channels[j] % 2 then channels[i] < channels[j] else channels[i] % 2 == 0
  }

  lemma BlocksInOrder(first: Byte, even: seq<Byte>, odd: seq<Byte>)
    requires Rising(even) && forall i :: 0 <= i < |even| ==> IsOtherEven(even[i])
    requires Rising(odd) && forall i :: 0 <= i < |odd| ==> IsOdd(odd[i])
    ensures InScanOrder([first] + even + odd)
  {
  }

  lemma ScanOrder()
    ensures InScanOrder(ChannelScan())
  {
    hide Range, Filter, InScanOrder, Rising;
    KeptOfRange(2, 39, IsOtherEven);
    KeptOfRange(1, 40, IsOdd);
    BlocksInOrder(8, Filter(Range(2, 39), IsOtherEven), Filter(Range(1, 40), IsOdd));
  }

  lemma DistinctJoin(a: seq<Byte>, b: seq<Byte>)
    requires Distinct(a) && Distinct(b) && forall x :: x in a ==> x !in b
    ensures Distinct(a + b)
  {
    forall i, j | 0 <= i < |a| && 0 <= j < |b| ensures a[i] != b[j] {
      assert a[i] in a && b[j] in b;
    }
  }
}
