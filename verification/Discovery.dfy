/** The receiver's answer to a discovery request: a header, then one 42-byte record per device it can hear. */
module Discovery {
  import opened Types
  import opened Frame

  const HEADER_LEN: nat := 4
  const RECORD_LEN: nat := 42
  const MARKER: Byte := 0x1C
  const MASTER: Byte := 0xFF

  datatype Error = Short | WrongCommand(command: Byte) | Truncated(expected: nat, actual: nat)

  type Record = r: seq<Byte> | |r| == RECORD_LEN witness Zeros(RECORD_LEN)

  // One record.

  /** The dongle's own entry. */
  function MasterIn(record: seq<Byte>): Option<Master> {
    if |record| < RECORD_LEN || record[41] != MARKER || record[18] != MASTER then None
    else if MacAt(record, 0) == NO_MAC then None
    else Some(Master(MacAt(record, 0), record[12]))
  }

  /** A speed keeps the low four bits of its high byte. */
  function RpmAt(record: Record, slot: nat): Word
    requires slot < FANS_PER_GROUP
  {
    var high, low: int := record[28 + 2 * slot], record[29 + 2 * slot];
    high % 16 * 256 + low
  }

  predicate BitSet(byte: Byte, bit: Byte)
    requires bit > 0
  {
    byte / bit % 2 == 1
  }

  /** A bound device. Ten is added to the count of a chain attached from the right. */
  function DeviceIn(record: Record): Option<Device> {
    if record[41] != MARKER || record[18] == MASTER then None
    else if MacAt(record, 0) == NO_MAC then None
    else
      var raw := record[19];
      Some(Device(
        MacAt(record, 0), MacAt(record, 6), record[12], record[13], record[18],
        Min(if raw >= 10 then raw - 10 else raw, FANS_PER_GROUP), raw >= 10,
        record[20..24], record[24..28],
        [RpmAt(record, 0), RpmAt(record, 1), RpmAt(record, 2), RpmAt(record, 3)],
        record[36..40], record[40], BitSet(record[28], 0x20), BitSet(record[28], 0x40)))
  }

  method ParseDevice(record: Record) returns (device: Option<Device>)
    ensures device == DeviceIn(record)
  {
    if record[41] != MARKER || record[18] == MASTER {
      return None;
    }
    var mac := MacAt(record, 0);
    if mac == NO_MAC {
      return None;
    }
    var raw, fanCount, rightAttach := record[19], 0, false;
    if raw >= 10 {
      fanCount, rightAttach := Min(raw - 10, FANS_PER_GROUP), true;
    } else {
      fanCount := Min(raw, FANS_PER_GROUP);
    }
    var rpm := new Word[FANS_PER_GROUP](_ => 0);
    for slot := 0 to FANS_PER_GROUP
      invariant forall k :: 0 <= k < slot ==> rpm[k] == RpmAt(record, k)
    {
      var high, low: int := record[28 + 2 * slot], record[29 + 2 * slot];
      rpm[slot] := high % 16 * 256 + low;
    }
    assert rpm[..] == [RpmAt(record, 0), RpmAt(record, 1), RpmAt(record, 2), RpmAt(record, 3)];
    device := Some(Device(
      mac, MacAt(record, 6), record[12], record[13], record[18], fanCount, rightAttach,
      record[20..24], record[24..28], rpm[..], record[36..40], record[40],
      BitSet(record[28], 0x20), BitSet(record[28], 0x40)));
  }

  /** What a record can say of a device. */
  predicate Representable(d: Device) {
    && d.mac != NO_MAC
    && d.deviceType != MASTER
    && d.fanCount <= FANS_PER_GROUP
    && forall slot :: 0 <= slot < FANS_PER_GROUP ==> d.rpm[slot] < 0x1000
  }

  function RpmBytes(rpm: Word, flags: Byte): (bytes: seq<Byte>)
    requires rpm < 0x1000 && flags <= 0xF0
    ensures |bytes| == 2
  {
    [rpm / 256 + flags, rpm % 256]
  }

  function Flags(d: Device): Byte {
    (if d.pwmLine then 0x20 else 0) + (if d.lightSync then 0x40 else 0)
  }

  /** A record that says this of a device. */
  function RecordOf(d: Device): Record
    requires Representable(d)
  {
    MacBytes(d.mac) + MacBytes(d.masterMac) + [d.channel, d.receiver] + Zeros(4)
    + [d.deviceType, d.fanCount + if d.rightAttach then 10 else 0] + d.effect + d.fanTypes
    + RpmBytes(d.rpm[0], Flags(d)) + RpmBytes(d.rpm[1], 0) + RpmBytes(d.rpm[2], 0) + RpmBytes(d.rpm[3], 0)
    + d.duty + [d.sequence, MARKER]
  }

  function MasterRecord(m: Master): Record {
    MacBytes(m.mac) + Zeros(6) + [m.channel] + Zeros(5) + [MASTER] + Zeros(22) + [MARKER]
  }

  lemma RecordTail(d: Device)
    requires Representable(d)
    ensures var r := RecordOf(d);
      && r[20..24] == d.effect && r[24..28] == d.fanTypes && r[36..40] == d.duty
      && r[18] == d.deviceType && r[19] == (d.fanCount + if d.rightAttach then 10 else 0)
      && r[40] == d.sequence && r[41] == MARKER
      && (forall slot :: 0 <= slot < FANS_PER_GROUP ==>
            r[28 + 2 * slot] == d.rpm[slot] / 256 + (if slot == 0 then Flags(d) else 0)
            && r[29 + 2 * slot] == d.rpm[slot] % 256)
  {
  }

  lemma RecordHead(d: Device)
    requires Representable(d)
    ensures var r := RecordOf(d);
      MacAt(r, 0) == d.mac && MacAt(r, 6) == d.masterMac && r[12] == d.channel && r[13] == d.receiver
  {
  }

  lemma SpeedsRoundTrip(d: Device)
    requires Representable(d)
    ensures var r := RecordOf(d);
      && (forall slot :: 0 <= slot < FANS_PER_GROUP ==> RpmAt(r, slot) == d.rpm[slot])
      && (BitSet(r[28], 0x20) <==> d.pwmLine) && (BitSet(r[28], 0x40) <==> d.lightSync)
  {
    hide RecordOf;
    RecordTail(d);
    var r := RecordOf(d);
    assert r[28 + 2 * 0] == d.rpm[0] / 256 + Flags(d);
  }

  /** Everything a record can say of a device is read back from a record that says it. */
  lemma DeviceRoundTrip(d: Device)
    requires Representable(d)
    ensures DeviceIn(RecordOf(d)) == Some(d)
  {
    hide RecordOf, RpmAt, BitSet;
    var r := RecordOf(d);
    RecordHead(d);
    RecordTail(d);
    SpeedsRoundTrip(d);
    assert [RpmAt(r, 0), RpmAt(r, 1), RpmAt(r, 2), RpmAt(r, 3)] == d.rpm;
  }

  /** And nothing else is ever read: the devices a record can yield are exactly the representable ones. */
  lemma ReadDevicesAreRepresentable(d: Device)
    ensures Representable(d) <==> exists r: Record :: DeviceIn(r) == Some(d)
  {
    if Representable(d) {
      DeviceRoundTrip(d);
    }
  }

  lemma MasterRoundTrip(m: Master)
    requires m.mac != NO_MAC
    ensures MasterIn(MasterRecord(m)) == Some(m)
  {
  }

  /**
    Which records are read at all: those that carry the marker and an address, the dongle's own told
    by its type. The fans are at most four, whatever the count byte; ten or more tells the side.
   */
  lemma ReadIff(record: Record)
    ensures var marked := record[41] == 0x1C && exists i :: 0 <= i < 6 && record[i] != 0;
      && (MasterIn(record).Some? <==> marked && record[18] == 0xFF)
      && (DeviceIn(record).Some? <==> marked && record[18] != 0xFF)
      && (Unreadable(record) <==> !marked)
    ensures DeviceIn(record).Some? ==>
      var device, count := DeviceIn(record).value, record[19];
      && (device.rightAttach <==> count >= 10)
      && device.fanCount == Min(4, if count >= 10 then count - 10 else count)
  {
    hide RpmAt, BitSet;
  }

  /** When a reply is refused, and for what. */
  lemma RefusedIff(reply: seq<Byte>, pages: Byte)
    ensures var read := ReplyIn(reply, pages);
      && (read == Err(Short) <==> |reply| < 4)
      && (forall command :: read == Err(WrongCommand(command)) <==>
            |reply| >= 4 && reply[0] == command && command != 0x10)
      && (read.Err? <==>
            || |reply| < 4 || reply[0] != 0x10
            || |reply| < 4 + 42 * Min(reply[1], 10 * Max(1, pages)))
      && (read.Ok? ==> read.value.reported == reply[1])
  {
    hide RecordsIn, MastersIn, DevicesIn, SkippedIn;
  }

  // A whole reply.

  /** How many records are read: what the header promises, held to what the pages asked for can carry. */
  function RecordCount(reported: Byte, pages: Byte): nat {
    Min(reported, Max(pages, 1) * RECORDS_PER_PAGE)
  }

  function RecordAt(reply: seq<Byte>, i: nat): Record
    requires HEADER_LEN + (i + 1) * RECORD_LEN <= |reply|
  {
    reply[HEADER_LEN + i * RECORD_LEN..HEADER_LEN + (i + 1) * RECORD_LEN]
  }

  function RecordsIn(reply: seq<Byte>, count: nat): (records: seq<Record>)
    requires HEADER_LEN + count * RECORD_LEN <= |reply|
    ensures |records| == count
  {
    seq(count, i requires 0 <= i < count => RecordAt(reply, i))
  }

  function MastersIn(records: seq<Record>): (masters: seq<Master>)
    ensures |masters| <= |records|
  {
    if records == [] then []
    else
      var last := MasterIn(Last(records));
      MastersIn(Front(records)) + if last.Some? then [last.value] else []
  }

  function DevicesIn(records: seq<Record>): (devices: seq<Device>)
    ensures |devices| <= |records|
  {
    if records == [] then []
    else
      var last := DeviceIn(Last(records));
      DevicesIn(Front(records)) + if last.Some? then [last.value] else []
  }

  predicate Unreadable(record: Record) {
    MasterIn(record).None? && DeviceIn(record).None?
  }

  function SkippedIn(records: seq<Record>): (skipped: nat)
    ensures skipped <= |records|
  {
    if records == [] then 0 else SkippedIn(Front(records)) + if Unreadable(Last(records)) then 1 else 0
  }

  /** What a reply to a request for `pages` pages says. */
  function ReplyIn(reply: seq<Byte>, pages: Byte): Result<Reply, Error> {
    if |reply| < HEADER_LEN then Err(Short)
    else if reply[0] != SEND_RF then Err(WrongCommand(reply[0]))
    else
      var count := RecordCount(reply[1], pages);
      var expected := HEADER_LEN + count * RECORD_LEN;
      if |reply| < expected then Err(Truncated(expected, |reply|))
      else
        var records := RecordsIn(reply, count);
        Ok(Reply(reply[1], MastersIn(records), DevicesIn(records), SkippedIn(records)))
  }

  method ParseReply(reply: seq<Byte>, pages: Byte) returns (result: Result<Reply, Error>)
    ensures result == ReplyIn(reply, pages)
  {
    if |reply| < HEADER_LEN {
      return Err(Short);
    }
    if reply[0] != SEND_RF {
      return Err(WrongCommand(reply[0]));
    }
    var count := Min(reply[1], Max(pages, 1) * RECORDS_PER_PAGE);
    var expected := HEADER_LEN + count * RECORD_LEN;
    if |reply| < expected {
      return Err(Truncated(expected, |reply|));
    }
    var masters, devices, skipped := SortRecords(reply, count);
    result := Ok(Reply(reply[1], masters, devices, skipped));
  }

  /** Reads record after record, sorting each into one of the three. The count of skipped ones never overflows. */
  method SortRecords(reply: seq<Byte>, count: nat) returns (masters: seq<Master>, devices: seq<Device>, skipped: Byte)
    requires count <= 255 && HEADER_LEN + count * RECORD_LEN <= |reply|
    ensures masters == MastersIn(RecordsIn(reply, count))
    ensures devices == DevicesIn(RecordsIn(reply, count))
    ensures skipped == SkippedIn(RecordsIn(reply, count))
  {
    hide MasterIn, DeviceIn;
    masters, devices, skipped := [], [], 0;
    for i := 0 to count
      invariant masters == MastersIn(RecordsIn(reply, i))
      invariant devices == DevicesIn(RecordsIn(reply, i))
      invariant skipped == SkippedIn(RecordsIn(reply, i))
    {
      var record := RecordAt(reply, i);
      assert Front(RecordsIn(reply, i + 1)) == RecordsIn(reply, i) && Last(RecordsIn(reply, i + 1)) == record;
      OneOrTheOther(record);
      var master := MasterIn(record);
      if master.Some? {
        masters := masters + [master.value];
      } else {
        var device := ParseDevice(record);
        if device.Some? {
          devices := devices + [device.value];
        } else {
          skipped := skipped + 1;
        }
      }
    }
  }

  lemma OneOrTheOther(record: Record)
    ensures MasterIn(record).None? || DeviceIn(record).None?
  {
  }

  lemma {:induction false} EachIsOneOfThree(records: seq<Record>)
    ensures |MastersIn(records)| + |DevicesIn(records)| + SkippedIn(records) == |records|
  {
    if records != [] {
      EachIsOneOfThree(Front(records));
    }
  }

  /** Every record examined is a dongle's, a device's or skipped, and one of them only. */
  lemma NoRecordIsLost(reply: seq<Byte>, pages: Byte)
    requires ReplyIn(reply, pages).Ok?
    ensures var r := ReplyIn(reply, pages).value;
      |r.masters| + |r.devices| + r.skipped == RecordCount(r.reported, pages) <= 255
  {
    EachIsOneOfThree(RecordsIn(reply, RecordCount(reply[1], pages)));
  }

  /** The first `n` bytes of a stream, or all of it if it is shorter. */
  function Cut(stream: seq<Byte>, n: nat): seq<Byte> {
    stream[..Min(n, |stream|)]
  }

  /** A reply of `pages` pages always has room for the records it may carry. */
  lemma BufferIsLargeEnough(reported: Byte, pages: Byte)
    ensures HEADER_LEN + RecordCount(reported, pages) * RECORD_LEN <= DiscoveryReplyLen(pages)
  {
  }

  /**
    Reading into a buffer of the size asked for gives what reading the whole stream would, errors
    included: so a truncated reply means that bytes were really missing.
   */
  lemma BufferLosesNothing(stream: seq<Byte>, pages: Byte)
    ensures ReplyIn(Cut(stream, DiscoveryReplyLen(pages)), pages) == ReplyIn(stream, pages)
  {
    var kept := Cut(stream, DiscoveryReplyLen(pages));
    if |stream| > DiscoveryReplyLen(pages) {
      BufferIsLargeEnough(stream[1], pages);
      var count := RecordCount(stream[1], pages);
      assert HEADER_LEN + count * RECORD_LEN <= |kept|;
      SameRecords(stream, kept, count);
    } else {
      assert kept == stream;
    }
  }

  lemma SameRecords(stream: seq<Byte>, kept: seq<Byte>, count: nat)
    requires kept <= stream && HEADER_LEN + count * RECORD_LEN <= |kept|
    ensures RecordsIn(stream, count) == RecordsIn(kept, count)
  {
    forall i | 0 <= i < count ensures RecordAt(stream, i) == RecordAt(kept, i) {
      assert HEADER_LEN + (i + 1) * RECORD_LEN <= |kept|;
    }
  }

  // A reply written down and read back.

  datatype Entry = OfMaster(master: Master) | OfDevice(device: Device) | Noise(record: Record)

  predicate Sound(e: Entry) {
    match e
    case OfMaster(m) => m.mac != NO_MAC
    case OfDevice(d) => Representable(d)
    case Noise(record) => Unreadable(record)
  }

  function EntryRecord(e: Entry): Record
    requires Sound(e)
  {
    match e
    case OfMaster(m) => MasterRecord(m)
    case OfDevice(d) => RecordOf(d)
    case Noise(record) => record
  }

  function Body(entries: seq<Entry>): (bytes: seq<Byte>)
    requires forall e :: e in entries ==> Sound(e)
    ensures |bytes| == |entries| * RECORD_LEN
  {
    if entries == [] then [] else Body(Front(entries)) + EntryRecord(Last(entries))
  }

  function ReplyBytes(entries: seq<Entry>): seq<Byte>
    requires |entries| <= 255 && forall e :: e in entries ==> Sound(e)
  {
    [SEND_RF, |entries|, 0, 0] + Body(entries)
  }

  function MastersOf(entries: seq<Entry>): seq<Master> {
    if entries == [] then []
    else MastersOf(Front(entries)) + if Last(entries).OfMaster? then [Last(entries).master] else []
  }

  function DevicesOf(entries: seq<Entry>): seq<Device> {
    if entries == [] then []
    else DevicesOf(Front(entries)) + if Last(entries).OfDevice? then [Last(entries).device] else []
  }

  function NoiseOf(entries: seq<Entry>): (n: nat)
    ensures n <= |entries|
  {
    if entries == [] then 0 else NoiseOf(Front(entries)) + if Last(entries).Noise? then 1 else 0
  }

  lemma EntryReads(e: Entry)
    requires Sound(e)
    ensures MasterIn(EntryRecord(e)) == (if e.OfMaster? then Some(e.master) else None)
    ensures DeviceIn(EntryRecord(e)) == (if e.OfDevice? then Some(e.device) else None)
  {
    match e {
      case OfMaster(m) => MasterRoundTrip(m);
      case OfDevice(d) =>
        RecordTail(d);
        DeviceRoundTrip(d);
      case Noise(_) =>
    }
  }

  lemma {:induction false} BodyAt(entries: seq<Entry>, i: nat)
    requires i < |entries| && forall e :: e in entries ==> Sound(e)
    ensures Body(entries)[i * RECORD_LEN..(i + 1) * RECORD_LEN] == EntryRecord(entries[i])
  {
    if i < |entries| - 1 {
      BodyAt(Front(entries), i);
      assert (i + 1) * RECORD_LEN <= |Front(entries)| * RECORD_LEN;
      assert Body(entries)[i * RECORD_LEN..(i + 1) * RECORD_LEN]
        == Body(Front(entries))[i * RECORD_LEN..(i + 1) * RECORD_LEN];
    }
  }

  lemma {:induction false} RecordsRead(entries: seq<Entry>, records: seq<Record>)
    requires |entries| == |records|
    requires forall i :: 0 <= i < |entries| ==> Sound(entries[i]) && records[i] == EntryRecord(entries[i])
    ensures MastersIn(records) == MastersOf(entries)
    ensures DevicesIn(records) == DevicesOf(entries)
    ensures SkippedIn(records) == NoiseOf(entries)
  {
    if entries != [] {
      RecordsRead(Front(entries), Front(records));
      EntryReads(Last(entries));
    }
  }

  /**
    Round trip: from the reply that lists these entries, as many of them as the pages asked for can
    carry are read back, dongles and devices each in the reply's order, unreadable ones counted.
   */
  lemma ReplyRoundTrip(entries: seq<Entry>, pages: Byte)
    requires |entries| <= 255 && forall e :: e in entries ==> Sound(e)
    ensures var read := entries[..RecordCount(|entries|, pages)];
      ReplyIn(ReplyBytes(entries), pages)
      == Ok(Reply(|entries|, MastersOf(read), DevicesOf(read), NoiseOf(read)))
  {
    hide Body, EntryRecord, Sound, MastersOf, DevicesOf, NoiseOf;
    var count, reply := RecordCount(|entries|, pages), ReplyBytes(entries);
    assert HEADER_LEN + count * RECORD_LEN <= |reply|;
    forall i | 0 <= i < count ensures RecordsIn(reply, count)[i] == EntryRecord(entries[i]) {
      RecordIs(entries, i);
    }
    RecordsRead(entries[..count], RecordsIn(reply, count));
  }

  lemma RecordIs(entries: seq<Entry>, i: nat)
    requires i < |entries| <= 255 && forall e :: e in entries ==> Sound(e)
    ensures HEADER_LEN + (i + 1) * RECORD_LEN <= |ReplyBytes(entries)|
    ensures RecordAt(ReplyBytes(entries), i) == EntryRecord(entries[i])
  {
    hide Body, EntryRecord, Sound;
    BodyAt(entries, i);
    var reply, body := ReplyBytes(entries), Body(entries);
    assert (i + 1) * RECORD_LEN <= |entries| * RECORD_LEN;
    assert reply[HEADER_LEN + i * RECORD_LEN..HEADER_LEN + (i + 1) * RECORD_LEN]
      == body[i * RECORD_LEN..(i + 1) * RECORD_LEN];
  }
}
