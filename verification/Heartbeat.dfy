/** The broadcast once a second, its first after connecting in init form. */
module Heartbeat {
  import opened Types

  const INTERVAL: nat := SECOND

  /** What happened: a heartbeat attempted, or the dongle reconnected. */
  datatype Act = Beat(first: bool, ok: bool, at: Time) | Renewed

  datatype State = State(sent: bool, last: Option<Time>, acts: seq<Act>) {

    predicate Due(now: Time) {
      last.None? || Since(now, last.value) >= INTERVAL
    }

    /** One tick's heartbeat, if it is due: whether the send succeeds is the link's to say. */
    function Beaten(ok: bool, now: Time): State {
      if !Due(now) then this
      else if ok then State(true, Some(now), acts + [Beat(!sent, true, now)])
      else State(sent, last, acts + [Beat(!sent, false, now)])
    }

    function Reconnected(): State {
      State(false, None, acts + [Renewed])
    }
  }

  datatype Op = Tick(ok: bool, at: Time) | Renew

  function Apply(s: State, op: Op): State {
    match op
    case Tick(ok, at) => s.Beaten(ok, at)
    case Renew => s.Reconnected()
  }

  function Run(ops: seq<Op>): State {
    if ops == [] then State(false, None, []) else Apply(Run(Front(ops)), Last(ops))
  }

  function Latest(ops: seq<Op>): Time {
    if ops == [] then 0 else if Last(ops).Tick? then Last(ops).at else Latest(Front(ops))
  }

  predicate Timed(ops: seq<Op>) {
    ops == [] || (Timed(Front(ops)) && (Last(ops).Tick? ==> Latest(Front(ops)) <= Last(ops).at))
  }

  predicate Success(act: Act) {
    act.Beat? && act.ok
  }

  /** When a heartbeat last got through since the start or the last reconnect, if one did. */
  function LastSuccess(acts: seq<Act>): Option<Time> {
    if acts == [] || Last(acts).Renewed? then None
    else if Success(Last(acts)) then Some(Last(acts).at)
    else LastSuccess(Front(acts))
  }

  /** The state remembers the last success, and the trace so far has kept its promises. */
  ghost predicate Fits(s: State, now: Time) {
    && s.last == LastSuccess(s.acts)
    && (s.sent <==> s.last.Some?)
    && (s.last.Some? ==> s.last.value <= now)
    && forall j :: 0 <= j < |s.acts| ==> Kept(s.acts, j)
  }

  /** Act `j` is in init form only as the first success could be, and succeeds only a second after the last. */
  ghost predicate Kept(acts: seq<Act>, j: nat)
    requires j < |acts|
  {
    var earlier := LastSuccess(acts[..j]);
    acts[j].Beat? ==>
      && (acts[j].first <==> earlier.None?)
      && (acts[j].ok && earlier.Some? ==> acts[j].at - earlier.value >= SECOND)
  }

  lemma KeptGrows(acts: seq<Act>, act: Act)
    requires forall j :: 0 <= j < |acts| ==> Kept(acts, j)
    requires act.Beat? ==>
      && (act.first <==> LastSuccess(acts).None?)
      && (act.ok && LastSuccess(acts).Some? ==> act.at - LastSuccess(acts).value >= SECOND)
    ensures forall j :: 0 <= j < |acts| + 1 ==> Kept(acts + [act], j)
    ensures LastSuccess(acts + [act])
      == if act.Renewed? then None else if act.ok then Some(act.at) else LastSuccess(acts)
  {
    var more := acts + [act];
    assert Front(more) == acts;
    forall j | 0 <= j < |more| ensures Kept(more, j) {
      if j < |acts| {
        assert more[..j] == acts[..j] && Kept(acts, j);
      } else {
        assert more[..j] == acts;
      }
    }
  }

  lemma {:induction false} RunFits(ops: seq<Op>)
    requires Timed(ops)
    ensures Fits(Run(ops), Latest(ops))
  {
    if ops != [] {
      RunFits(Front(ops));
      var s := Run(Front(ops));
      match Last(ops) {
        case Tick(ok, at) =>
          if s.Due(at) {
            KeptGrows(s.acts, Beat(!s.sent, ok, at));
          }
        case Renew => KeptGrows(s.acts, Renewed);
      }
    }
  }

  /**
    On every run, a heartbeat is in init form exactly when none has got through since the
    start or the last reconnect, and one that gets through is a second or more after the last.
   */
  lemma HeartbeatTrace(ops: seq<Op>, j: nat)
    requires Timed(ops) && j < |Run(ops).acts| && Run(ops).acts[j].Beat?
    ensures var beat, earlier := Run(ops).acts[j], LastSuccess(Run(ops).acts[..j]);
      && (beat.first <==> earlier.None?)
      && (beat.ok && earlier.Some? ==> beat.at - earlier.value >= SECOND)
  {
    RunFits(ops);
    assert Kept(Run(ops).acts, j);
  }

  /**
    On every run, past its heartbeat a tick finds in the trace a success less than a second old, or
    has just seen its send fail.
   */
  lemma TickIsAlive(ops: seq<Op>, ok: bool, now: Time)
    requires Timed(ops) && Latest(ops) <= now
    ensures var acts := Run(ops).Beaten(ok, now).acts;
      || (LastSuccess(acts).Some? && 0 <= now - LastSuccess(acts).value < SECOND)
      || (acts != [] && Last(acts).Beat? && !Last(acts).ok && Last(acts).at == now)
  {
    RunFits(ops);
    RunFits(ops + [Tick(ok, now)]);
    assert Front(ops + [Tick(ok, now)]) == ops;
  }
}
