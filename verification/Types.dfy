/** Values shared by every part of the model: bytes, addresses, instants, device records. */
module Types {

  type Byte = b: int | 0 <= b < 256
  type Word = w: int | 0 <= w < 0x1_0000
  type Quad = q: seq<Byte> | |q| == 4 witness [0, 0, 0, 0]
  type Words = q: seq<Word> | |q| == 4 witness [0, 0, 0, 0]

  /** An instant, in nanoseconds from an arbitrary start. */
  type Time = nat

  const SECOND: Time := 1_000_000_000

  /** Fans a record can describe. */
  const FANS_PER_GROUP: nat := 4

  datatype Option<+T> = None | Some(value: T)

  datatype Result<+T, +E> = Ok(value: T) | Err(error: E)

  /** A six-byte radio address. */
  datatype Mac = Mac(b0: Byte, b1: Byte, b2: Byte, b3: Byte, b4: Byte, b5: Byte)

  /** The address of nothing. */
  const NO_MAC := Mac(0, 0, 0, 0, 0, 0)

  /** The lexicographic order of addresses. */
  predicate Before(a: Mac, b: Mac) {
    a.b0 < b.b0 || (a.b0 == b.b0 && (
    a.b1 < b.b1 || (a.b1 == b.b1 && (
    a.b2 < b.b2 || (a.b2 == b.b2 && (
    a.b3 < b.b3 || (a.b3 == b.b3 && (
    a.b4 < b.b4 || (a.b4 == b.b4 && a.b5 < b.b5)))))))))
  }

  /** How long before `now` the instant `earlier` was; zero if it was not before. */
  function Since(now: Time, earlier: Time): nat {
    if now >= earlier then now - earlier else 0
  }

  function Min(a: int, b: int): int {
    if a < b then a else b
  }

  function Max(a: int, b: int): int {
    if a < b then b else a
  }

  function Last<T>(s: seq<T>): T
    requires s != []
  {
    s[|s| - 1]
  }

  function Front<T>(s: seq<T>): seq<T>
    requires s != []
  {
    s[..|s| - 1]
  }

  ghost predicate Distinct<T>(s: seq<T>) {
    forall i, j :: 0 <= i < j < |s| ==> s[i] != s[j]
  }

  /** One fan group, or another device bound to a dongle, as one record reports it. */
  datatype Device = Device(
    mac: Mac,
    masterMac: Mac,
    channel: Byte,
    receiver: Byte,
    deviceType: Byte,
    fanCount: Byte,
    rightAttach: bool,
    effect: Quad,
    fanTypes: Quad,
    rpm: Words,
    duty: Quad,
    sequence: Byte,
    pwmLine: bool,
    lightSync: bool)

  /** The dongle's own entry in a discovery reply. */
  datatype Master = Master(mac: Mac, channel: Byte)

  /** A parsed discovery reply: how many devices were reported, those read, and how many were not. */
  datatype Reply = Reply(reported: Byte, masters: seq<Master>, devices: seq<Device>, skipped: Byte)
}
