/**
  The dongle pair: connecting to the transmitter, polling the receiver, sending radio payloads,
  over ports whose far end may do anything.
 */
module Dongle {
  import opened Types
  import opened Frame
  import opened Discovery

  datatype Role = Transmitter | Receiver

  datatype Fault =
    | Find(error: string)
    | Open(role: Role, error: string)
    | Transfer(role: Role, error: string)
    | NoMaster
    | ShortWrite(role: Role, took: nat)
    | BadReply(why: Discovery.Error)
    | Closed

  /** What a flush before a poll may take: so many reads of so many bytes. */
  const FLUSH_LEN: nat := 512
  const FLUSH_READS: nat := 64

  /** How long a read is prepared to wait. */
  datatype Wait = Flush | ReplyStart | ReplyPause | ConnectAnswer

  /** What comes in, in order: bytes that one read can take, a silence that outlasts a read, a failed read. */
  datatype Arrival = Piece(bytes: seq<Byte>) | Quiet | Broken(error: string)

  /** What a write does: how many bytes the device takes, or a failure; and what it brings in. */
  datatype Reaction = Reaction(outcome: Result<nat, string>, brings: seq<Arrival>)

  /**
    The far end: how it reacts to the n-th frame written, and whether a read too small for a piece
    leaves the rest of it for the next read or loses it.
   */
  datatype Peer = Peer(reacts: nat -> Reaction, keepsRest: bool)

  /** A port: what waits to be read, what was written, and how long each read was prepared to wait. */
  datatype Wire = Wire(waiting: seq<Arrival>, written: seq<Frame>, waits: seq<Wait>) {

    function Waited(wait: Wait): Wire {
      this.(waits := waits + [wait])
    }

    /** One read of up to `size` bytes; nothing in time reads as no bytes. */
    function Read(size: nat, wait: Wait, peer: Peer): (Wire, Result<seq<Byte>, string>) {
      if waiting == [] then (Waited(wait), Ok([]))
      else
        var next := Waited(wait).(waiting := waiting[1..]);
        match waiting[0]
        case Quiet => (next, Ok([]))
        case Broken(error) => (next, Err(error))
        case Piece(bytes) =>
          if |bytes| <= size then (next, Ok(bytes))
          else if peer.keepsRest then (next.(waiting := [Piece(bytes[size..])] + waiting[1..]), Ok(bytes[..size]))
          else (next, Ok(bytes[..size]))
    }

    function Write(frame: Frame, peer: Peer): (Wire, Result<nat, string>) {
      var reaction := peer.reacts(|written|);
      (this.(waiting := waiting + reaction.brings, written := written + [frame]), reaction.outcome)
    }

    /** Discards what is waiting, in up to `tries` reads. */
    function Drained(size: nat, tries: nat, peer: Peer): (Wire, Option<string>)
      decreases tries
    {
      if tries == 0 then (this, None)
      else
        var (next, got) := Read(size, Flush, peer);
        match got
        case Err(error) => (next, Some(error))
        case Ok(bytes) => if bytes == [] then (next, None) else next.Drained(size, tries - 1, peer)
    }

    /** The first `room` bytes of what arrives before a silence. */
    function Gathered(room: nat, wait: Wait, peer: Peer): (Wire, Result<seq<Byte>, string>)
      decreases room
    {
      if room == 0 then (this, Ok([]))
      else
        var (next, got) := Read(FRAME_LEN, wait, peer);
        match got
        case Err(error) => (next, Err(error))
        case Ok(bytes) =>
          if bytes == [] then (next, Ok([]))
          else
            var n := Min(|bytes|, room);
            var (last, more) := next.Gathered(room - n, ReplyPause, peer);
            (last, if more.Ok? then Ok(bytes[..n] + more.value) else more)
    }

    /** Writes one frame, which must go out whole. */
    function FrameWritten(role: Role, frame: Frame, peer: Peer): (Wire, Option<Fault>) {
      var (next, took) := Write(frame, peer);
      match took
      case Err(error) => (next, Some(Transfer(role, error)))
      case Ok(n) => (next, if n == FRAME_LEN then None else Some(ShortWrite(role, n)))
    }

    /** Asks the receiver for `pages` pages of its device list. */
    function Polled(pages: Byte, peer: Peer): (Wire, Result<Reply, Fault>) {
      var (flushed, stuck) := Drained(FLUSH_LEN, FLUSH_READS, peer);
      if stuck.Some? then (flushed, Err(Transfer(Receiver, stuck.value)))
      else
        var (asked, failed) := flushed.FrameWritten(Receiver, DiscoveryRequest(pages), peer);
        if failed.Some? then (asked, Err(failed.value))
        else
          var (read, got) := asked.Gathered(DiscoveryReplyLen(pages), ReplyStart, peer);
          match got
          case Err(error) => (read, Err(Transfer(Receiver, error)))
          case Ok(bytes) => (read, Understood(ReplyIn(bytes, pages)))
    }

    /** Sends these frames until one fails. */
    function AllWritten(frames: seq<Frame>, peer: Peer): (Wire, Option<Fault>)
      decreases |frames|
    {
      if frames == [] then (this, None)
      else
        var (next, failed) := FrameWritten(Transmitter, frames[0], peer);
        if failed.Some? then (next, failed) else next.AllWritten(frames[1..], peer)
    }

    /** Asks the transmitter once whether it is on this channel. */
    function TriedOnce(channel: Byte, peer: Peer): (Wire, Result<Option<ConnectReply>, Fault>) {
      var (flushed, stuck) := Drained(FRAME_LEN, 16, peer);
      if stuck.Some? then (flushed, Err(Transfer(Transmitter, stuck.value)))
      else
        var (asked, failed) := flushed.FrameWritten(Transmitter, ConnectRequest(channel), peer);
        if failed.Some? then (asked, Err(failed.value))
        else
          var (read, got) := asked.Read(FRAME_LEN, ConnectAnswer, peer);
          match got
          case Err(error) => (read, Err(Transfer(Transmitter, error)))
          case Ok(bytes) => (read, Ok(ParseConnectReply(bytes)))
    }

    /** Asks until it answers or one transfer fails, following the list of channels to ask on. */
    function Connected(channels: seq<Byte>, peer: Peer): (Wire, Result<(ConnectReply, Byte), Fault>)
      decreases |channels|
    {
      if channels == [] then (this, Err(NoMaster))
      else
        var (next, got) := TriedOnce(channels[0], peer);
        match got
        case Err(fault) => (next, Err(fault))
        case Ok(Some(reply)) => (next, Ok((reply, channels[0])))
        case Ok(None) => next.Connected(channels[1..], peer)
    }
  }

  function Understood(read: Result<Reply, Discovery.Error>): Result<Reply, Fault> {
    match read
    case Ok(reply) => Ok(reply)
    case Err(error) => Err(BadReply(error))
  }

  /** The bytes of a run of pieces, joined. */
  function Stream(pieces: seq<Arrival>): seq<Byte> {
    if pieces == [] then []
    else (if pieces[0].Piece? then pieces[0].bytes else []) + Stream(pieces[1..])
  }

  /** Bytes only, none of it lost to a read of `size` bytes. */
  ghost predicate Pieces(arrivals: seq<Arrival>, size: nat, peer: Peer) {
    forall i :: 0 <= i < |arrivals| ==>
      arrivals[i].Piece? && arrivals[i].bytes != [] && (peer.keepsRest || |arrivals[i].bytes| <= size)
  }

  /** Bytes only, one read of `size` bytes enough for each. */
  ghost predicate SmallPieces(arrivals: seq<Arrival>, size: nat) {
    forall i :: 0 <= i < |arrivals| ==> arrivals[i].Piece? && 0 < |arrivals[i].bytes| <= size
  }

  /** Nothing more comes in time. */
  predicate Silent(arrivals: seq<Arrival>) {
    arrivals == [] || arrivals[0].Quiet?
  }

  lemma CutJoins(a: seq<Byte>, b: seq<Byte>, room: nat)
    ensures Cut(a + b, room) == a[..Min(|a|, room)] + Cut(b, room - Min(|a|, room))
  {
  }

  /** A piece too large for a read, taken apart. */
  function Split(pieces: seq<Arrival>): seq<Arrival>
    requires pieces != [] && pieces[0].Piece?
  {
    var piece := pieces[0].bytes;
    if |piece| <= FRAME_LEN then pieces[1..] else [Piece(piece[FRAME_LEN..])] + pieces[1..]
  }

  lemma StreamStarts(bytes: seq<Byte>, rest: seq<Arrival>)
    ensures Stream([Piece(bytes)] + rest) == bytes + Stream(rest)
  {
    assert ([Piece(bytes)] + rest)[1..] == rest;
  }

  lemma Apart(piece: seq<Byte>, more: seq<Byte>, n: nat)
    requires n <= |piece|
    ensures piece + more == piece[..n] + (piece[n..] + more)
  {
  }

  /** Taking a piece apart leaves the stream as it was. */
  lemma SplitKeepsTheStream(piece: seq<Byte>, rest: seq<Arrival>)
    requires |piece| > FRAME_LEN
    ensures Stream([Piece(piece)] + rest) == piece[..FRAME_LEN] + Stream([Piece(piece[FRAME_LEN..])] + rest)
  {
    hide Stream;
    StreamStarts(piece, rest);
    StreamStarts(piece[FRAME_LEN..], rest);
    Apart(piece, Stream(rest), FRAME_LEN);
  }

  /** One read of a port that still brings pieces: what is read and what is left make up the same stream. */
  lemma ReadTakesSome(wire: Wire, pieces: seq<Arrival>, tail: seq<Arrival>, wait: Wait, peer: Peer)
    requires wire.waiting == pieces + tail && pieces != [] && Pieces(pieces, FRAME_LEN, peer)
    ensures pieces[0].Piece?
    ensures var (next, got) := wire.Read(FRAME_LEN, wait, peer);
      && got.Ok? && got.value != [] && next.waiting == Split(pieces) + tail
      && Pieces(Split(pieces), FRAME_LEN, peer) && Stream(pieces) == got.value + Stream(Split(pieces))
  {
    hide Stream;
    var piece, rest := pieces[0].bytes, pieces[1..];
    assert wire.waiting[0] == pieces[0] && wire.waiting[1..] == rest + tail;
    assert pieces == [Piece(piece)] + rest;
    if |piece| > FRAME_LEN {
      SplitKeepsTheStream(piece, rest);
      var left := [Piece(piece[FRAME_LEN..])];
      assert left + (rest + tail) == left + rest + tail;
    } else {
      StreamStarts(piece, rest);
    }
  }

  /** A reading is another with these bytes before it. */
  ghost predicate Continues(whole: (Wire, Result<seq<Byte>, string>), so: seq<Byte>,
                            rest: (Wire, Result<seq<Byte>, string>)) {
    && whole.0 == rest.0
    && whole.1 == if rest.1.Ok? then Ok(so + rest.1.value) else rest.1
  }

  lemma NothingYet(whole: (Wire, Result<seq<Byte>, string>))
    ensures Continues(whole, [], whole)
  {
    assert whole.1.Ok? ==> [] + whole.1.value == whole.1.value;
  }

  lemma GatherIsFull(wire: Wire, wait: Wait, peer: Peer)
    ensures wire.Gathered(0, wait, peer) == (wire, Ok([]))
  {
  }

  /** A failed read, or none in time, is the end of it. */
  lemma GatherEnds(before: Wire, after: Wire, room: nat, wait: Wait, peer: Peer, got: Result<seq<Byte>, string>)
    requires room > 0 && before.Read(FRAME_LEN, wait, peer) == (after, got)
    ensures got.Err? || got.value == [] ==> before.Gathered(room, wait, peer) == (after, got)
  {
  }

  lemma GatherUnfolds(before: Wire, after: Wire, bytes: seq<Byte>, room: nat, wait: Wait, peer: Peer)
    requires room > 0 && bytes != [] && before.Read(FRAME_LEN, wait, peer) == (after, Ok(bytes))
    ensures var n := Min(|bytes|, room);
      var (last, more) := after.Gathered(room - n, ReplyPause, peer);
      before.Gathered(room, wait, peer) == (last, if more.Ok? then Ok(bytes[..n] + more.value) else more)
  {
    hide Wire.Read;
  }

  /** One more piece in the buffer, the rest still to come: the whole is the same. */
  lemma GatherGrows(before: Wire, after: Wire, so: seq<Byte>, bytes: seq<Byte>, room: nat, wait: Wait, peer: Peer)
    requires room > 0 && bytes != [] && before.Read(FRAME_LEN, wait, peer) == (after, Ok(bytes))
    ensures var n := Min(|bytes|, room);
      var was, now := before.Gathered(room, wait, peer), after.Gathered(room - n, ReplyPause, peer);
      forall whole :: Continues(whole, so, was) ==> Continues(whole, so + bytes[..n], now)
  {
    hide Wire.Read, Wire.Gathered;
    GatherUnfolds(before, after, bytes, room, wait, peer);
    var n := Min(|bytes|, room);
    var now := after.Gathered(room - n, ReplyPause, peer);
    assert now.1.Ok? ==> so + (bytes[..n] + now.1.value) == (so + bytes[..n]) + now.1.value;
  }

  /** However the bytes before a silence are cut into pieces, what is gathered is their prefix cut to the buffer. */
  lemma {:induction false} GatherTakesThePrefix(wire: Wire, pieces: seq<Arrival>, tail: seq<Arrival>, room: nat,
                                                wait: Wait, peer: Peer)
    requires wire.waiting == pieces + tail && Pieces(pieces, FRAME_LEN, peer)
    requires Silent(tail) || |Stream(pieces)| >= room
    ensures wire.Gathered(room, wait, peer).1 == Ok(Cut(Stream(pieces), room))
    decreases room
  {
    if pieces == [] {
      assert wire.waiting == tail;
    } else if room == 0 {
      GatherIsFull(wire, wait, peer);
    } else {
      hide Wire.Read, Wire.Gathered, Stream, Pieces, Cut, Split;
      ReadTakesSome(wire, pieces, tail, wait, peer);
      var left := Split(pieces);
      var (next, got) := wire.Read(FRAME_LEN, wait, peer);
      GatherUnfolds(wire, next, got.value, room, wait, peer);
      GatherTakesThePrefix(next, left, tail, room - Min(|got.value|, room), ReplyPause, peer);
      CutJoins(got.value, Stream(left), room);
    }
  }

  /** What comes next is a failed read. */
  predicate Breaks(arrivals: seq<Arrival>, error: string) {
    arrivals != [] && arrivals[0] == Broken(error)
  }

  /** A read that fails before the buffer is full is the end of it, whatever came before. */
  lemma {:induction false} GatherBreaks(wire: Wire, pieces: seq<Arrival>, tail: seq<Arrival>, room: nat, wait: Wait,
                                        peer: Peer, error: string)
    requires wire.waiting == pieces + tail && Pieces(pieces, FRAME_LEN, peer) && Breaks(tail, error)
    requires |Stream(pieces)| < room
    ensures wire.Gathered(room, wait, peer).1 == Err(error)
    decreases room
  {
    if pieces == [] {
      assert wire.waiting == tail;
    } else {
      hide Wire.Read, Wire.Gathered, Stream, Pieces, Split;
      ReadTakesSome(wire, pieces, tail, wait, peer);
      var (next, got) := wire.Read(FRAME_LEN, wait, peer);
      GatherUnfolds(wire, next, got.value, room, wait, peer);
      GatherBreaks(next, Split(pieces), tail, room - |got.value|, ReplyPause, peer, error);
    }
  }

  /** A flush that meets a failed read while it may still read fails with it, and writes nothing. */
  lemma {:induction false} DrainBreaks(wire: Wire, pieces: seq<Arrival>, tail: seq<Arrival>, size: nat, tries: nat,
                                       peer: Peer, error: string)
    requires wire.waiting == pieces + tail && SmallPieces(pieces, size) && |pieces| < tries && Breaks(tail, error)
    ensures wire.Drained(size, tries, peer).1 == Some(error)
    ensures wire.Drained(size, tries, peer).0.written == wire.written
    decreases tries
  {
    if pieces != [] {
      var next := wire.Read(size, Flush, peer).0;
      assert wire.waiting[0] == pieces[0] && wire.waiting[1..] == pieces[1..] + tail;
      DrainBreaks(next, pieces[1..], tail, size, tries - 1, peer, error);
    }
  }

  function Pauses(n: nat): seq<Wait> {
    seq(n, _ => ReplyPause)
  }

  lemma ReadWaits(wire: Wire, wait: Wait, peer: Peer)
    ensures wire.Read(FRAME_LEN, wait, peer).0.waits == wire.waits + [wait]
  {
  }

  /** The opening read waits for the reply to start; every later one only for a pause. */
  lemma {:induction false} GatherWaits(wire: Wire, room: nat, wait: Wait, peer: Peer) returns (later: nat)
    ensures wire.Gathered(room, wait, peer).0.waits
      == if room == 0 then wire.waits else wire.waits + ([wait] + Pauses(later))
    decreases room
  {
    hide Wire.Read;
    later := 0;
    if room > 0 {
      ReadWaits(wire, wait, peer);
      var (next, got) := wire.Read(FRAME_LEN, wait, peer);
      assert [wait] + Pauses(0) == [wait];
      if got.Ok? && got.value != [] {
        var left := room - Min(|got.value|, room);
        var more := GatherWaits(next, left, ReplyPause, peer);
        if left > 0 {
          later := more + 1;
          assert Pauses(later) == [ReplyPause] + Pauses(more);
          assert wire.waits + [wait] + Pauses(later) == wire.waits + ([wait] + Pauses(later));
        }
      }
    }
  }

  /** A flush takes one piece a read, and no more pieces than it may make reads. */
  lemma {:induction false} DrainTakes(wire: Wire, size: nat, tries: nat, peer: Peer)
    requires SmallPieces(wire.waiting, size)
    ensures wire.Drained(size, tries, peer).1 == None
    ensures var after := wire.Drained(size, tries, peer).0;
      after.written == wire.written && after.waiting == wire.waiting[Min(tries, |wire.waiting|)..]
    decreases tries
  {
    if tries > 0 && wire.waiting != [] {
      DrainTakes(wire.Read(size, Flush, peer).0, size, tries - 1, peer);
    }
  }

  /** The receiver takes the request whole; it brings these pieces, and then the rest. */
  ghost predicate Brings(wire: Wire, pieces: seq<Arrival>, tail: seq<Arrival>, peer: Peer) {
    && peer.reacts(|wire.written|) == Reaction(Ok(FRAME_LEN), pieces + tail)
    && Pieces(pieces, FRAME_LEN, peer)
  }

  /** The receiver takes the request and answers with these pieces, then falls silent. */
  ghost predicate Answers(wire: Wire, pieces: seq<Arrival>, tail: seq<Arrival>, peer: Peer) {
    Brings(wire, pieces, tail, peer) && Silent(tail)
  }

  /** What is left of the stale pieces once a poll has flushed all it may. */
  function StaleAfterFlush(wire: Wire): seq<Arrival> {
    wire.waiting[Min(64, |wire.waiting|)..]
  }

  /**
    What a poll returns is what the bytes before the silence say, whatever their cut: the reply's
    own, after those of any stale pieces beyond the 64 that are flushed.
   */
  lemma PollReadsTheStream(wire: Wire, pieces: seq<Arrival>, tail: seq<Arrival>, pages: Byte, peer: Peer)
    requires SmallPieces(wire.waiting, 512) && Pieces(StaleAfterFlush(wire), FRAME_LEN, peer)
    requires Answers(wire, pieces, tail, peer)
    ensures wire.Polled(pages, peer).1 == Understood(ReplyIn(Stream(StaleAfterFlush(wire) + pieces), pages))
  {
    hide ReplyIn, Wire.Read, Wire.Drained, Wire.Gathered, Wire.FrameWritten, Wire.Polled, Brings, Cut;
    var all := StaleAfterFlush(wire) + pieces;
    var asked := AfterAsking(wire, pieces, tail, pages, peer);
    GatherTakesThePrefix(asked, all, tail, DiscoveryReplyLen(pages), ReplyStart, peer);
    BufferLosesNothing(Stream(all), pages);
  }

  /** A poll that has flushed and asked: what waits now is what its result is read from. */
  lemma AfterAsking(wire: Wire, pieces: seq<Arrival>, tail: seq<Arrival>, pages: Byte, peer: Peer) returns (asked: Wire)
    requires SmallPieces(wire.waiting, 512) && Pieces(StaleAfterFlush(wire), FRAME_LEN, peer)
    requires Brings(wire, pieces, tail, peer)
    ensures asked.waiting == StaleAfterFlush(wire) + pieces + tail
    ensures Pieces(StaleAfterFlush(wire) + pieces, FRAME_LEN, peer)
    ensures var got := asked.Gathered(DiscoveryReplyLen(pages), ReplyStart, peer).1;
      wire.Polled(pages, peer).1
      == if got.Ok? then Understood(ReplyIn(got.value, pages)) else Err(Transfer(Receiver, got.error))
  {
    hide ReplyIn, Wire.Read, Wire.Drained, Wire.Gathered, DiscoveryRequest, DiscoveryReplyLen, Pieces;
    DrainTakes(wire, 512, 64, peer);
    var flushed := wire.Drained(512, 64, peer).0;
    asked := flushed.FrameWritten(Receiver, DiscoveryRequest(pages), peer).0;
    Joined(StaleAfterFlush(wire), pieces, tail, peer);
  }

  // Polls that fail.

  /** A failed read in the flush fails the poll before anything is asked. */
  lemma PollFailsInFlush(wire: Wire, pieces: seq<Arrival>, tail: seq<Arrival>, pages: Byte, peer: Peer, error: string)
    requires wire.waiting == pieces + tail && SmallPieces(pieces, 512) && |pieces| < 64 && Breaks(tail, error)
    ensures wire.Polled(pages, peer).1 == Err(Transfer(Receiver, error))
    ensures wire.Polled(pages, peer).0.written == wire.written
  {
    DrainBreaks(wire, pieces, tail, 512, 64, peer, error);
  }

  /** A request that fails or goes out short fails the poll. */
  lemma PollFailsAsking(wire: Wire, pages: Byte, peer: Peer)
    requires SmallPieces(wire.waiting, 512) && peer.reacts(|wire.written|).outcome != Ok(64)
    ensures wire.Polled(pages, peer).1 == match peer.reacts(|wire.written|).outcome
      case Err(error) => Err(Transfer(Receiver, error))
      case Ok(took) => Err(ShortWrite(Receiver, took))
  {
    DrainTakes(wire, 512, 64, peer);
  }

  /**
    A read that fails after these bytes fails the poll, whatever they were, unless they were all the
    pages asked for can hold: then it is never made.
   */
  lemma PollFailsReading(wire: Wire, pieces: seq<Arrival>, tail: seq<Arrival>, pages: Byte, peer: Peer, error: string)
    requires SmallPieces(wire.waiting, 512) && Pieces(StaleAfterFlush(wire), FRAME_LEN, peer)
    requires Brings(wire, pieces, tail, peer) && Breaks(tail, error)
    ensures var stream := Stream(StaleAfterFlush(wire) + pieces);
      wire.Polled(pages, peer).1
      == if |stream| < 512 * Max(1, Min(pages, 26)) then Err(Transfer(Receiver, error))
         else Understood(ReplyIn(stream, pages))
  {
    hide ReplyIn, Wire.Read, Wire.Drained, Wire.Gathered, Wire.FrameWritten, Wire.Polled, Brings, Cut, Stream;
    var asked := AfterAsking(wire, pieces, tail, pages, peer);
    var all := StaleAfterFlush(wire) + pieces;
    if |Stream(all)| < DiscoveryReplyLen(pages) {
      GatherBreaks(asked, all, tail, DiscoveryReplyLen(pages), ReplyStart, peer, error);
    } else {
      GatherTakesThePrefix(asked, all, tail, DiscoveryReplyLen(pages), ReplyStart, peer);
      BufferLosesNothing(Stream(all), pages);
    }
  }

  /** A frame of two bytes, the rest zero. */
  predicate Says(frame: Frame, first: int, second: int) {
    frame[0] == first && frame[1] == second && forall i :: 2 <= i < FRAME_LEN ==> frame[i] == 0
  }

  lemma {:induction false} GatherWritesNothing(wire: Wire, room: nat, wait: Wait, peer: Peer)
    ensures wire.Gathered(room, wait, peer).0.written == wire.written
    decreases room
  {
    hide Wire.Read, Wire.Gathered;
    if room == 0 {
      GatherIsFull(wire, wait, peer);
    } else {
      var (next, got) := wire.Read(FRAME_LEN, wait, peer);
      ReadWritesNothing(wire, wait, peer);
      GatherEnds(wire, next, room, wait, peer, got);
      if got.Ok? && got.value != [] {
        GatherUnfolds(wire, next, got.value, room, wait, peer);
        GatherWritesNothing(next, room - Min(|got.value|, room), ReplyPause, peer);
      }
    }
  }

  lemma ReadWritesNothing(wire: Wire, wait: Wait, peer: Peer)
    ensures wire.Read(FRAME_LEN, wait, peer).0.written == wire.written
  {
  }

  /** Unless its flush fails, a poll writes one request for the pages it is told to, one at least and 26 at most. */
  lemma PollAsksForPages(wire: Wire, pages: Byte, peer: Peer)
    requires wire.Drained(512, 64, peer).1.None?
    ensures var written := wire.Polled(pages, peer).0.written;
      && |written| == |wire.written| + 1 && written[..|wire.written|] == wire.written
      && Says(written[|wire.written|], 0x10, Max(1, Min(pages, 26)))
  {
    hide Wire.Drained, Wire.Gathered, Wire.FrameWritten, ReplyIn, DiscoveryRequest, Says;
    DrainWritesNothing(wire, 512, 64, peer);
    RequestSays(pages);
    var flushed := wire.Drained(512, 64, peer).0;
    FrameGoesOut(flushed, DiscoveryRequest(pages), peer);
    var asked := flushed.FrameWritten(Receiver, DiscoveryRequest(pages), peer).0;
    GatherWritesNothing(asked, DiscoveryReplyLen(pages), ReplyStart, peer);
    OneMoreFrame(wire.written, DiscoveryRequest(pages));
  }

  lemma RequestSays(pages: Byte)
    ensures Says(DiscoveryRequest(pages), 0x10, Max(1, Min(pages, 26)))
  {
  }

  lemma FrameGoesOut(wire: Wire, frame: Frame, peer: Peer)
    ensures wire.FrameWritten(Receiver, frame, peer).0.written == wire.written + [frame]
  {
  }

  lemma OneMoreFrame(written: seq<Frame>, frame: Frame)
    ensures var after := written + [frame]; after[..|written|] == written && after[|written|] == frame
  {
  }

  lemma Joined(a: seq<Arrival>, b: seq<Arrival>, tail: seq<Arrival>, peer: Peer)
    requires Pieces(a, FRAME_LEN, peer) && Pieces(b, FRAME_LEN, peer)
    ensures Pieces(a + b, FRAME_LEN, peer) && a + b + tail == a + (b + tail)
  {
  }

  /**
    Fragmentation independence. With no transfer error and at most 64 stale pieces beforehand, two
    ports that bring the same bytes before a silence, however cut, give the same poll: the reply
    those bytes spell.
   */
  lemma FragmentationDoesNotMatter(a: Wire, b: Wire, cutA: seq<Arrival>, cutB: seq<Arrival>,
                                   tailA: seq<Arrival>, tailB: seq<Arrival>, pages: Byte, peerA: Peer, peerB: Peer)
    requires |a.waiting| <= 64 && |b.waiting| <= 64
    requires SmallPieces(a.waiting, 512) && SmallPieces(b.waiting, 512)
    requires Answers(a, cutA, tailA, peerA) && Answers(b, cutB, tailB, peerB)
    requires Stream(cutA) == Stream(cutB)
    ensures a.Polled(pages, peerA).1 == b.Polled(pages, peerB).1 == Understood(ReplyIn(Stream(cutA), pages))
  {
    hide Wire.Polled, ReplyIn;
    PollReadsTheStream(a, cutA, tailA, pages, peerA);
    PollReadsTheStream(b, cutB, tailB, pages, peerB);
    assert StaleAfterFlush(a) + cutA == cutA && StaleAfterFlush(b) + cutB == cutB;
  }

  /**
    The flush has its limit. After more than 64 stale pieces the 65th is taken for the start of the
    reply: whatever the receiver answers, unless that piece starts as a reply would the poll fails.
   */
  lemma StalePieceIsTakenForTheReply(wire: Wire, pieces: seq<Arrival>, tail: seq<Arrival>, pages: Byte, peer: Peer)
    requires SmallPieces(wire.waiting, 512) && |wire.waiting| > 64
    requires Pieces(StaleAfterFlush(wire), FRAME_LEN, peer) && Answers(wire, pieces, tail, peer)
    requires |Stream(StaleAfterFlush(wire) + pieces)| >= HEADER_LEN
    ensures var first := wire.waiting[64].bytes[0];
      first != SEND_RF ==> wire.Polled(pages, peer).1 == Err(BadReply(WrongCommand(first)))
  {
    hide Wire.Polled, ReplyIn, Stream, Pieces, Answers;
    PollReadsTheStream(wire, pieces, tail, pages, peer);
    StreamBegins(StaleAfterFlush(wire), pieces);
    BadStart(Stream(StaleAfterFlush(wire) + pieces), pages);
  }

  /** Pieces with a byte in the first of them: that byte starts the stream. */
  lemma StreamBegins(stale: seq<Arrival>, pieces: seq<Arrival>)
    requires stale != [] && stale[0].Piece? && stale[0].bytes != []
    ensures Stream(stale + pieces) != [] && Stream(stale + pieces)[0] == stale[0].bytes[0]
  {
    var all := stale + pieces;
    assert all[0] == stale[0];
    assert Stream(all) == all[0].bytes + Stream(all[1..]);
  }

  /** A reply of the wrong command is refused by its first byte; any other is not refused for that. */
  lemma BadStart(stream: seq<Byte>, pages: Byte)
    requires |stream| >= HEADER_LEN
    ensures stream[0] != SEND_RF ==> ReplyIn(stream, pages) == Err(WrongCommand(stream[0]))
    ensures forall command :: stream[0] == SEND_RF ==> ReplyIn(stream, pages) != Err(WrongCommand(command))
  {
  }

  /** A receiver that takes every request and answers with one piece. */
  function Answering(bytes: seq<Byte>): Peer {
    Peer((n: nat) => Reaction(Ok(FRAME_LEN), [Piece(bytes)]), true)
  }

  lemma StreamOf(stale: seq<Arrival>, bytes: seq<Byte>)
    ensures |Stream(stale + [Piece(bytes)])| >= |bytes|
  {
    if stale == [] {
      assert stale + [Piece(bytes)] == [Piece(bytes)] + [];
      StreamStarts(bytes, []);
    } else {
      assert (stale + [Piece(bytes)])[1..] == stale[1..] + [Piece(bytes)];
      StreamOf(stale[1..], bytes);
    }
  }

  /** With more than 64 stale pieces there is an answer that the poll does not return. */
  lemma SomeAnswerIsLost(wire: Wire, pages: Byte) returns (answer: seq<Arrival>, peer: Peer)
    requires SmallPieces(wire.waiting, 512) && |wire.waiting| > 64
    ensures Answers(wire, answer, [], peer) && Pieces(StaleAfterFlush(wire), FRAME_LEN, peer)
    ensures wire.Polled(pages, peer).1 != Understood(ReplyIn(Stream(answer), pages))
  {
    hide Wire.Polled, ReplyIn, Stream;
    var first := wire.waiting[64].bytes[0];
    var bytes: seq<Byte> := [if first == SEND_RF then GET_MAC else SEND_RF, 0, 0, 0];
    answer, peer := [Piece(bytes)], Answering(bytes);
    assert answer + [] == answer && [] + answer == answer;
    PollReadsTheStream(wire, answer, [], pages, peer);
    StreamBegins(StaleAfterFlush(wire), answer);
    StreamBegins(answer, []);
    StreamOf(StaleAfterFlush(wire), bytes);
    StreamOf([], bytes);
    BadStart(Stream(StaleAfterFlush(wire) + answer), pages);
    BadStart(Stream(answer), pages);
  }

  /** Whatever answers the request, the poll returns what the answer says. */
  ghost predicate ReturnsTheAnswer(wire: Wire, pages: Byte) {
    forall pieces, tail, peer :: Answers(wire, pieces, tail, peer) && Pieces(StaleAfterFlush(wire), FRAME_LEN, peer) ==>
      wire.Polled(pages, peer).1 == Understood(ReplyIn(Stream(pieces), pages))
  }

  /** It does exactly when no more pieces were waiting than a flush takes. */
  lemma ReturnsTheAnswerIff(wire: Wire, pages: Byte)
    requires SmallPieces(wire.waiting, 512)
    ensures ReturnsTheAnswer(wire, pages) <==> |wire.waiting| <= 64
  {
    hide Wire.Polled, ReplyIn, Answers, Stream;
    if |wire.waiting| <= 64 {
      forall pieces, tail, peer | Answers(wire, pieces, tail, peer) && Pieces(StaleAfterFlush(wire), FRAME_LEN, peer)
        ensures wire.Polled(pages, peer).1 == Understood(ReplyIn(Stream(pieces), pages))
      {
        PollReadsTheStream(wire, pieces, tail, pages, peer);
        assert StaleAfterFlush(wire) + pieces == pieces;
      }
    } else {
      var answer, peer := SomeAnswerIsLost(wire, pages);
    }
  }

  // Connecting.

  function Repeated(channel: Byte, times: nat): seq<Byte> {
    seq(times, _ => channel)
  }

  /** Each channel as many times in a row as it is to be tried. */
  function Flat(plan: seq<(Byte, nat)>): seq<Byte> {
    if plan == [] then [] else Repeated(plan[0].0, plan[0].1) + Flat(plan[1..])
  }

  /** The plan of a connect: channel 8 three times, then the other even ones and the odd ones once each. */
  function FullScan(): seq<(Byte, nat)> {
    seq(|ChannelScan()|, i requires 0 <= i < |ChannelScan()| => (ChannelScan()[i], ConnectAttempts(ChannelScan()[i])))
  }

  const RECONNECT_ATTEMPTS: nat := 3

  /** A list of channels, each as often as it is tried. */
  function PlanOf(channels: seq<Byte>): seq<(Byte, nat)> {
    seq(|channels|, i requires 0 <= i < |channels| => (channels[i], ConnectAttempts(channels[i])))
  }

  lemma {:induction false} PlanCounts(channels: seq<Byte>, channel: Byte)
    requires Distinct(channels)
    ensures multiset(Flat(PlanOf(channels)))[channel]
      == if channel !in channels then 0 else if channel == 8 then 3 else 1
  {
    if channels != [] {
      var first, rest := channels[0], channels[1..];
      assert channels == [first] + rest && first !in rest;
      assert PlanOf(channels)[1..] == PlanOf(rest);
      RepeatedCounts(first, ConnectAttempts(first), channel);
      PlanCounts(rest, channel);
    }
  }

  lemma {:induction false} RepeatedCounts(channel: Byte, times: nat, other: Byte)
    ensures multiset(Repeated(channel, times))[other] == if other == channel then times else 0
  {
    if times > 0 {
      assert Repeated(channel, times) == [channel] + Repeated(channel, times - 1);
      RepeatedCounts(channel, times - 1, other);
    }
  }

  /** A full scan asks on channel 8 three times, first of all, and on every other channel from 1 to 39 once. */
  lemma FullScanAsks(channel: Byte)
    ensures multiset(Flat(FullScan()))[channel]
      == if channel == 8 then 3 else if 1 <= channel <= 39 then 1 else 0
    ensures |Flat(FullScan())| >= 3 && Flat(FullScan())[..3] == [8, 8, 8]
  {
    hide ChannelScan;
    ScanCoversEveryChannel();
    ScanStarts();
    assert FullScan() == PlanOf(ChannelScan());
    PlanCounts(ChannelScan(), channel);
    assert FullScan()[0] == (8, 3);
  }

  /** The transmitter's answer, byte by byte: what makes it one, and what it says. */
  ghost predicate IsAnswer(reply: seq<Byte>, answer: Option<ConnectReply>) {
    if |reply| >= 13 && reply[0] == 0x11
      && (exists i :: 1 <= i < 7 && reply[i] != 0)
      && (reply[7] != 0 || reply[8] != 0 || reply[9] != 0 || reply[10] > 1)
    then
      && answer.Some?
      && MacBytes(answer.value.masterMac) == reply[1..7]
      && BigEndian(reply[11..13]) == answer.value.firmware
    else answer.None?
  }

  lemma StatusIs(status: seq<Byte>)
    requires |status| == 4
    ensures BigEndian(status) <= 1 <==> status[0] == 0 && status[1] == 0 && status[2] == 0 && status[3] <= 1
  {
    assert Front(status) == status[..3] && Front(status[..3]) == status[..2];
    assert Front(status[..2]) == status[..1] && Front(status[..1]) == [];
    assert BigEndian(status[..1]) == status[0];
    assert BigEndian(status[..2]) == BigEndian(status[..1]) * 256 + status[1];
    assert BigEndian(status[..3]) == BigEndian(status[..2]) * 256 + status[2];
  }

  lemma WordIs(bytes: seq<Byte>, at: nat)
    requires at + 2 <= |bytes|
    ensures BigEndian(bytes[at..at + 2]) == WordAt(bytes, at)
  {
    var word := bytes[at..at + 2];
    assert Front(word) == [bytes[at]] && Front([bytes[at]]) == [] && Last(word) == bytes[at + 1];
    assert BigEndian([bytes[at]]) == bytes[at];
  }

  lemma AnswerIs(reply: seq<Byte>)
    ensures IsAnswer(reply, ParseConnectReply(reply))
  {
    if |reply| >= 13 {
      hide BigEndian;
      StatusIs(reply[7..11]);
      assert MacBytes(MacAt(reply, 1)) == reply[1..7];
      WordIs(reply, 11);
    }
  }

  /**
    What one try on a channel does, with no more stale pieces than its flush takes: it writes the
    request for that channel; a failed or short write, or a failed read, is its failure; else the
    first piece to come, if one comes in time, is or is not an answer.
   */
  lemma TryIs(wire: Wire, channel: Byte, peer: Peer)
    requires SmallPieces(wire.waiting, 64) && |wire.waiting| <= 16
    ensures var (after, got) := wire.TriedOnce(channel, peer);
      var reaction := peer.reacts(|wire.written|);
      && |after.written| == |wire.written| + 1 && after.written[..|wire.written|] == wire.written
      && Says(after.written[|wire.written|], 0x11, channel)
      && match reaction.outcome
         case Err(error) => got == Err(Transfer(Transmitter, error))
         case Ok(took) =>
           if took != 64 then got == Err(ShortWrite(Transmitter, took))
           else if Silent(reaction.brings) then got == Ok(None)
           else match reaction.brings[0]
             case Broken(error) => got == Err(Transfer(Transmitter, error))
             case Piece(bytes) => got.Ok? && IsAnswer(bytes[..Min(|bytes|, 64)], got.value)
             case Quiet => false
  {
    hide ParseConnectReply, Wire.Drained;
    DrainTakes(wire, 64, 16, peer);
    var brings := peer.reacts(|wire.written|).brings;
    assert wire.waiting[Min(16, |wire.waiting|)..] + brings == brings;
    AnswerIs([]);
    if brings != [] && brings[0].Piece? {
      AnswerIs(brings[0].bytes[..Min(|brings[0].bytes|, 64)]);
      assert |brings[0].bytes| <= 64 ==> brings[0].bytes[..Min(|brings[0].bytes|, 64)] == brings[0].bytes;
    }
  }

  function Requests(channels: seq<Byte>): (requests: seq<Frame>)
    ensures |requests| == |channels|
  {
    seq(|channels|, i requires 0 <= i < |channels| => ConnectRequest(channels[i]))
  }

  lemma {:induction false} DrainWritesNothing(wire: Wire, size: nat, tries: nat, peer: Peer)
    ensures wire.Drained(size, tries, peer).0.written == wire.written
    decreases tries
  {
    if tries > 0 {
      var (next, got) := wire.Read(size, Flush, peer);
      if got.Ok? && got.value != [] {
        DrainWritesNothing(next, size, tries - 1, peer);
      }
    }
  }

  lemma OneTryAsksOnce(wire: Wire, channel: Byte, peer: Peer)
    ensures var (after, got) := wire.TriedOnce(channel, peer);
      && (after.written == wire.written || after.written == wire.written + [ConnectRequest(channel)])
      && (got.Ok? ==> after.written == wire.written + [ConnectRequest(channel)])
  {
    hide ConnectRequest, Wire.Drained;
    DrainWritesNothing(wire, FRAME_LEN, 16, peer);
  }

  /**
    A connect asks on the planned channels in order and stops at the first answer or failed transfer:
    it gives up with no master only after asking on all of them, and the channel it reports is the
    one it asked on last.
   */
  lemma {:induction false} ConnectFollowsThePlan(wire: Wire, channels: seq<Byte>, peer: Peer) returns (asked: nat)
    ensures var (after, got) := wire.Connected(channels, peer);
      && asked <= |channels|
      && after.written == wire.written + Requests(channels[..asked])
      && (got == Err(NoMaster) ==> asked == |channels|)
      && (got.Ok? ==> asked > 0 && got.value.1 == channels[asked - 1])
    decreases |channels|
  {
    hide Wire.TriedOnce, Wire.Connected, Requests, ConnectRequest;
    asked := 0;
    NoRequests(channels);
    ConnectUnfolds(wire, channels, peer);
    if channels != [] {
      var (next, got) := wire.TriedOnce(channels[0], peer);
      OneTryAsksOnce(wire, channels[0], peer);
      TryIsNoVerdict(wire, channels[0], peer);
      if got == Ok(None) {
        var more := ConnectFollowsThePlan(next, channels[1..], peer);
        asked := more + 1;
        RequestsStep(channels, more);
        Regroup(wire.written, [ConnectRequest(channels[0])], Requests(channels[1..][..more]));
      } else if next.written != wire.written {
        asked := 1;
        NoRequests(channels[1..]);
        RequestsStep(channels, 0);
      }
    }
  }

  lemma Regroup(a: seq<Frame>, b: seq<Frame>, c: seq<Frame>)
    ensures (a + b) + c == a + (b + c)
    ensures b + [] == b
  {
  }

  lemma ConnectUnfolds(wire: Wire, channels: seq<Byte>, peer: Peer)
    ensures wire.Connected(channels, peer) ==
      if channels == [] then (wire, Err(NoMaster))
      else
        var (next, got) := wire.TriedOnce(channels[0], peer);
        match got
        case Err(fault) => (next, Err(fault))
        case Ok(Some(reply)) => (next, Ok((reply, channels[0])))
        case Ok(None) => next.Connected(channels[1..], peer)
  {
  }

  lemma NoRequests(channels: seq<Byte>)
    ensures Requests(channels[..0]) == []
  {
  }

  lemma RequestsStep(channels: seq<Byte>, more: nat)
    requires more < |channels|
    ensures Requests(channels[..more + 1]) == [ConnectRequest(channels[0])] + Requests(channels[1..][..more])
  {
  }

  /** One try alone never concludes that there is no master. */
  lemma TryIsNoVerdict(wire: Wire, channel: Byte, peer: Peer)
    ensures wire.TriedOnce(channel, peer).1 != Err(NoMaster)
  {
  }

  /**
    A send that succeeds has put all its frames out, in order, each taken whole; one that fails
    stopped at the frame that did, and says how it did.
   */
  lemma {:induction false} SendWritesInOrder(wire: Wire, frames: seq<Frame>, peer: Peer) returns (sent: nat)
    ensures var (after, failed) := wire.AllWritten(frames, peer);
      && sent <= |frames|
      && after.written == wire.written + frames[..sent]
      && (failed.None? ==> sent == |frames|)
      && (failed.Some? ==> sent > 0)
      && (forall n :: |wire.written| <= n < |after.written| - (if failed.Some? then 1 else 0) ==>
            peer.reacts(n).outcome == Ok(64))
      && (failed.Some? ==> match peer.reacts(|wire.written| + sent - 1).outcome
            case Err(error) => failed == Some(Transfer(Transmitter, error))
            case Ok(took) => took != 64 && failed == Some(ShortWrite(Transmitter, took)))
    decreases |frames|
  {
    sent := 0;
    if frames != [] {
      var (next, failed) := wire.FrameWritten(Transmitter, frames[0], peer);
      if failed.None? {
        sent := SendWritesInOrder(next, frames[1..], peer);
        assert frames[..sent + 1] == [frames[0]] + frames[1..][..sent];
      }
      sent := sent + 1;
      assert failed.Some? ==> frames[..1] == [frames[0]];
    } else {
      assert frames[..0] == [];
    }
  }

  /** The pages asked for after a poll carry all the devices it reported. */
  lemma PagesCarryWhatWasReported(reported: Byte)
    ensures RecordCount(reported, PagesFor(reported)) == reported
    ensures forall pages: Byte :: 1 <= pages < PagesFor(reported) ==> RecordCount(reported, pages) < reported
  {
  }

  // The same, as the program runs it.

  class Port {
    const peer: Peer
    var waiting: seq<Arrival>
    ghost var written: seq<Frame>
    ghost var waits: seq<Wait>
    var count: nat

    ghost predicate Valid()
      reads this
    {
      count == |written|
    }

    ghost function View(): Wire
      reads this
    {
      Wire(waiting, written, waits)
    }

    constructor (stale: seq<Arrival>, far: Peer)
      ensures Valid() && View() == Wire(stale, [], []) && peer == far
    {
      peer, waiting, written, waits, count := far, stale, [], [], 0;
    }

    method Read(size: nat, ghost wait: Wait) returns (got: Result<seq<Byte>, string>)
      requires Valid()
      modifies this
      ensures Valid() && (View(), got) == old(View()).Read(size, wait, peer)
    {
      waits := waits + [wait];
      if waiting == [] {
        return Ok([]);
      }
      var head := waiting[0];
      waiting := waiting[1..];
      match head {
        case Quiet => got := Ok([]);
        case Broken(error) => got := Err(error);
        case Piece(bytes) =>
          if |bytes| > size && peer.keepsRest {
            waiting := [Piece(bytes[size..])] + waiting;
          }
          got := Ok(if |bytes| <= size then bytes else bytes[..size]);
      }
    }

    method Write(frame: Frame) returns (took: Result<nat, string>)
      requires Valid()
      modifies this
      ensures Valid() && (View(), took) == old(View()).Write(frame, peer)
    {
      var reaction := peer.reacts(count);
      waiting, written, count := waiting + reaction.brings, written + [frame], count + 1;
      took := reaction.outcome;
    }
  }

  method Drain(port: Port, size: nat, tries: nat) returns (stuck: Option<string>)
    requires port.Valid()
    modifies port
    ensures port.Valid() && (port.View(), stuck) == old(port.View()).Drained(size, tries, port.peer)
  {
    for i := 0 to tries
      invariant port.Valid()
      invariant old(port.View()).Drained(size, tries, port.peer) == port.View().Drained(size, tries - i, port.peer)
    {
      var got := port.Read(size, Flush);
      if got.Err? {
        return Some(got.error);
      }
      if got.value == [] {
        return None;
      }
    }
    return None;
  }

  /** Fills the buffer from its start with what arrives before a silence. */
  method Gather(port: Port, buffer: array<Byte>, ghost first: Wait) returns (result: Result<nat, string>)
    requires port.Valid()
    modifies port, buffer
    ensures port.Valid()
    ensures var (after, got) := old(port.View()).Gathered(buffer.Length, first, port.peer);
      && port.View() == after
      && match got
         case Err(error) => result == Err(error)
         case Ok(bytes) => |bytes| <= buffer.Length && result == Ok(|bytes|) && buffer[..|bytes|] == bytes
  {
    hide Wire.Read, Wire.Gathered;
    var total := 0;
    ghost var wait := first;
    ghost var whole := port.View().Gathered(buffer.Length, first, port.peer);
    NothingYet(whole);
    assert buffer[..0] == [];
    while total < buffer.Length
      invariant port.Valid() && total <= buffer.Length
      invariant Continues(whole, buffer[..total], port.View().Gathered(buffer.Length - total, wait, port.peer))
    {
      ghost var before, so := port.View(), buffer[..total];
      var got := port.Read(FRAME_LEN, wait);
      GatherEnds(before, port.View(), buffer.Length - total, wait, port.peer, got);
      if got.Err? {
        return Err(got.error);
      }
      if got.value == [] {
        return Ok(total);
      }
      var n := Min(|got.value|, buffer.Length - total);
      CopyInto(buffer, total, got.value[..n]);
      assert buffer[..total + n] == so + got.value[..n];
      GatherGrows(before, port.View(), so, got.value, buffer.Length - total, wait, port.peer);
      total, wait := total + n, ReplyPause;
    }
    GatherIsFull(port.View(), wait, port.peer);
    result := Ok(total);
  }

  method WriteFrame(port: Port, role: Role, frame: Frame) returns (failed: Option<Fault>)
    requires port.Valid()
    modifies port
    ensures port.Valid() && (port.View(), failed) == old(port.View()).FrameWritten(role, frame, port.peer)
  {
    var took := port.Write(frame);
    failed := match took
      case Err(error) => Some(Transfer(role, error))
      case Ok(n) => if n != FRAME_LEN then Some(ShortWrite(role, n)) else None;
  }

  method PollPort(port: Port, pages: Byte) returns (result: Result<Reply, Fault>)
    requires port.Valid()
    modifies port
    ensures port.Valid() && (port.View(), result) == old(port.View()).Polled(pages, port.peer)
  {
    hide ReplyIn, Wire.Gathered, Wire.Drained;
    var stuck := Drain(port, FLUSH_LEN, FLUSH_READS);
    if stuck.Some? {
      return Err(Transfer(Receiver, stuck.value));
    }
    var failed := WriteFrame(port, Receiver, DiscoveryRequest(pages));
    if failed.Some? {
      return Err(failed.value);
    }
    var buffer := new Byte[DiscoveryReplyLen(pages)](_ => 0);
    var n := Gather(port, buffer, ReplyStart);
    if n.Err? {
      return Err(Transfer(Receiver, n.error));
    }
    var parsed := ParseReply(buffer[..n.value], pages);
    result := Understood(parsed);
  }

  /** Sends one radio payload as its four frames. */
  method SendFrames(port: Port, channel: Byte, receiver: Byte, payload: RfPayload) returns (failed: Option<Fault>)
    requires port.Valid()
    modifies port
    ensures port.Valid()
    ensures (port.View(), failed) == old(port.View()).AllWritten(Frames(channel, receiver, payload), port.peer)
  {
    var frames := RfFrames(channel, receiver, payload);
    for i := 0 to |frames|
      invariant port.Valid()
      invariant old(port.View()).AllWritten(frames, port.peer) == port.View().AllWritten(frames[i..], port.peer)
    {
      assert frames[i..][1..] == frames[i + 1..];
      failed := WriteFrame(port, Transmitter, frames[i]);
      if failed.Some? {
        return;
      }
    }
    failed := None;
  }

  /** Asks once. */
  method TryOnce(port: Port, channel: Byte) returns (result: Result<Option<ConnectReply>, Fault>)
    requires port.Valid()
    modifies port
    ensures port.Valid() && (port.View(), result) == old(port.View()).TriedOnce(channel, port.peer)
  {
    hide ParseConnectReply, Wire.Drained;
    var stuck := Drain(port, FRAME_LEN, 16);
    if stuck.Some? {
      return Err(Transfer(Transmitter, stuck.value));
    }
    var failed := WriteFrame(port, Transmitter, ConnectRequest(channel));
    if failed.Some? {
      return Err(failed.value);
    }
    var reply := port.Read(FRAME_LEN, ConnectAnswer);
    if reply.Err? {
      return Err(Transfer(Transmitter, reply.error));
    }
    result := Ok(ParseConnectReply(reply.value));
  }

  lemma ConnectStep(wire: Wire, channel: Byte, times: nat, rest: seq<Byte>, peer: Peer)
    requires times > 0
    ensures var (next, got) := wire.TriedOnce(channel, peer);
      wire.Connected(Repeated(channel, times) + rest, peer)
      == match got
         case Err(fault) => (next, Err(fault))
         case Ok(Some(reply)) => (next, Ok((reply, channel)))
         case Ok(None) => next.Connected(Repeated(channel, times - 1) + rest, peer)
  {
    hide Wire.TriedOnce;
    var channels := Repeated(channel, times) + rest;
    assert channels[0] == channel && channels[1..] == Repeated(channel, times - 1) + rest;
  }

  lemma NoneLeft(channel: Byte, rest: seq<Byte>)
    ensures Repeated(channel, 0) + rest == rest
  {
  }

  /** Tries one channel a few times; `rest` is what would be tried after it. */
  method TryChannel(port: Port, channel: Byte, attempts: nat, ghost rest: seq<Byte>)
    returns (answer: Result<Option<ConnectReply>, Fault>)
    requires port.Valid()
    modifies port
    ensures port.Valid()
    ensures old(port.View()).Connected(Repeated(channel, attempts) + rest, port.peer)
      == match answer
         case Err(fault) => (port.View(), Err(fault))
         case Ok(Some(reply)) => (port.View(), Ok((reply, channel)))
         case Ok(None) => port.View().Connected(rest, port.peer)
  {
    hide Wire.TriedOnce, Wire.Connected, Repeated;
    for k := 0 to attempts
      invariant port.Valid()
      invariant old(port.View()).Connected(Repeated(channel, attempts) + rest, port.peer)
        == port.View().Connected(Repeated(channel, attempts - k) + rest, port.peer)
    {
      ConnectStep(port.View(), channel, attempts - k, rest, port.peer);
      answer := TryOnce(port, channel);
      if answer.Err? || answer.value.Some? {
        return;
      }
    }
    NoneLeft(channel, rest);
    answer := Ok(None);
  }

  /** Tries each channel as often as planned. */
  method ConnectWith(port: Port, plan: seq<(Byte, nat)>) returns (result: Result<(ConnectReply, Byte), Fault>)
    requires port.Valid()
    modifies port
    ensures port.Valid() && (port.View(), result) == old(port.View()).Connected(Flat(plan), port.peer)
  {
    for i := 0 to |plan|
      invariant port.Valid()
      invariant old(port.View()).Connected(Flat(plan), port.peer) == port.View().Connected(Flat(plan[i..]), port.peer)
    {
      hide Wire.Connected;
      assert plan[i..][1..] == plan[i + 1..];
      var (channel, attempts) := plan[i];
      var answer := TryChannel(port, channel, attempts, Flat(plan[i + 1..]));
      if answer.Err? {
        return Err(answer.error);
      }
      if answer.value.Some? {
        return Ok((answer.value.value, channel));
      }
    }
    result := Err(NoMaster);
  }

  datatype Handles = Handles(tx: Port, rx: Port)

  /** Both dongles. Without handles it is closed until a reopen succeeds. */
  class Dongle {
    var handles: Option<Handles>
    var master: ConnectReply
    var channel: Byte
    var pages: Byte

    /** What the receiver last reported since it was opened, if it has. */
    ghost var heard: Option<Byte>

    ghost predicate Valid()
      reads this, Ports()
    {
      && pages == (if heard.None? then 1 else PagesFor(heard.value))
      && (handles.Some? ==>
            handles.value.tx.Valid() && handles.value.rx.Valid() && handles.value.tx != handles.value.rx)
    }

    ghost function Ports(): set<object>
      reads this
    {
      if handles.Some? then {handles.value.tx, handles.value.rx} else {}
    }

    /** Finds the dongle pair and connects to it; opening it gave `found`. */
    constructor (found: Handles, reply: ConnectReply, on: Byte)
      requires found.tx.Valid() && found.rx.Valid() && found.tx != found.rx
      ensures Valid() && handles == Some(found) && master == reply && channel == on && heard == None
    {
      handles, master, channel, pages, heard := Some(found), reply, on, 1, None;
    }

    /** One poll. The pages asked for follow what the receiver last reported. */
    method Poll() returns (result: Result<Reply, Fault>)
      requires Valid()
      modifies this, Ports()
      ensures Valid() && handles == old(handles) && master == old(master) && channel == old(channel)
      ensures old(handles).None? ==> result == Err(Closed)
      ensures old(handles).Some? ==>
        var rx := handles.value.rx;
        (rx.View(), result) == old(rx.View()).Polled(old(pages), rx.peer)
      ensures heard == if result.Ok? then Some(result.value.reported) else old(heard)
    {
      if handles.None? {
        return Err(Closed);
      }
      hide Wire.Polled;
      var rx := handles.value.rx;
      result := PollPort(rx, pages);
      if result.Ok? {
        pages := PagesFor(result.value.reported);
        heard := Some(result.value.reported);
      }
    }

    method SendOn(on: Byte, receiver: Byte, payload: RfPayload) returns (failed: Option<Fault>)
      requires Valid()
      modifies Ports()
      ensures Valid()
      ensures handles.None? ==> failed == Some(Closed)
      ensures handles.Some? ==>
        var tx := handles.value.tx;
        (tx.View(), failed) == old(tx.View()).AllWritten(Frames(on, receiver, payload), tx.peer)
    {
      if handles.None? {
        return Some(Closed);
      }
      hide Wire.AllWritten, Frames;
      failed := SendFrames(handles.value.tx, on, receiver, payload);
    }

    /** Gives the handles up, then connects anew to the pair found, on the last channel only or on all. */
    method Reopen(found: Result<Handles, Fault>, everyChannel: bool) returns (failed: Option<Fault>)
      requires Valid()
      requires found.Ok? ==> found.value.tx.Valid() && found.value.rx.Valid() && found.value.tx != found.value.rx
      modifies this, if found.Ok? then {found.value.tx} else {}
      ensures Valid()
      ensures failed.Some? ==>
        handles.None? && master == old(master) && channel == old(channel) && pages == old(pages)
      ensures failed.None? ==> found.Ok? && handles == Some(found.value) && pages == 1
      ensures found.Err? ==> failed == Some(found.error)
      ensures found.Ok? ==>
        var tx := found.value.tx;
        var plan := if everyChannel then FullScan() else [(old(channel), 3)];
        var (after, got) := old(tx.View()).Connected(Flat(plan), tx.peer);
        && tx.View() == after
        && match got
           case Err(fault) => failed == Some(fault)
           case Ok((reply, on)) => failed == None && master == reply && channel == on
    {
      hide Wire.Connected, FullScan, Flat;
      handles := None;
      if found.Err? {
        return Some(found.error);
      }
      var plan := if everyChannel then FullScan() else [(channel, RECONNECT_ATTEMPTS)];
      var connected := ConnectWith(found.value.tx, plan);
      if connected.Err? {
        return Some(connected.error);
      }
      handles, master, channel, pages, heard := Some(found.value), connected.value.0, connected.value.1, 1, None;
      failed := None;
    }
  }
}
