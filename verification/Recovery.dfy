/** The lost-dongle judgement and the reconnect attempts with their growing waits. */
module Recovery {
  import opened Types

  /** Polls that must fail in a row before the dongle counts as lost. */
  const POLL_FAILURES: nat := 3

  const FIRST_WAIT: nat := 2 * SECOND
  const MAX_WAIT: nat := 60 * SECOND

  datatype Act = Polled(ok: bool) | Attempt(everyChannel: bool, ok: bool, at: Time)

  datatype State = State(failures: nat, reconnectAt: Option<Time>, wait: nat, acts: seq<Act>) {

    predicate Lost() {
      failures >= POLL_FAILURES
    }

    predicate Attempts(now: Time) {
      Lost() && !(reconnectAt.Some? && now < reconnectAt.value)
    }

    predicate EveryChannel() {
      wait >= MAX_WAIT
    }

    function PolledOnce(ok: bool): State {
      if ok then State(0, None, FIRST_WAIT, acts + [Polled(true)])
      else State(failures + 1, reconnectAt, wait, acts + [Polled(false)])
    }

    /** One tick's recovery: an attempt if one is due, whose outcome is the link's to say. */
    function Recovered(ok: bool, now: Time): State {
      if !Attempts(now) then this
      else
        var more := acts + [Attempt(EveryChannel(), ok, now)];
        if ok then State(0, None, FIRST_WAIT, more)
        else State(failures, Some(now + wait), Min(wait * 2, MAX_WAIT), more)
    }
  }

  datatype Op = Poll(ok: bool) | Recover(ok: bool, at: Time)

  function Apply(s: State, op: Op): State {
    match op
    case Poll(ok) => s.PolledOnce(ok)
    case Recover(ok, at) => s.Recovered(ok, at)
  }

  function Run(ops: seq<Op>): State {
    if ops == [] then State(0, None, FIRST_WAIT, []) else Apply(Run(Front(ops)), Last(ops))
  }

  /** A successful poll or reconnect ends a streak. */
  predicate Success(act: Act) {
    act.ok
  }

  /** Polls failed since the last success. */
  function FailedPolls(acts: seq<Act>): nat {
    if acts == [] || Success(Last(acts)) then 0
    else FailedPolls(Front(acts)) + if Last(acts).Polled? then 1 else 0
  }

  /** The failed attempts since the last success, in order. */
  function Streak(acts: seq<Act>): seq<Act> {
    if acts == [] || Success(Last(acts)) then []
    else Streak(Front(acts)) + if Last(acts).Attempt? then [Last(acts)] else []
  }

  /** The wait after the `k`-th failed attempt of a streak. */
  function WaitAfter(k: nat): nat {
    if k == 0 then 2 * SECOND else Min(WaitAfter(k - 1) * 2, 60 * SECOND)
  }

  /** Within a streak, each attempt comes at its wait or later, and the sixth and later scan every channel. */
  ghost predicate Paced(streak: seq<Act>) {
    && (forall k :: 0 <= k < |streak| ==> streak[k].Attempt? && !streak[k].ok && (streak[k].everyChannel <==> k >= 5))
    && (forall k :: 0 <= k < |streak| - 1 ==> streak[k + 1].at >= streak[k].at + WaitAfter(k))
  }

  /** The state is what the trace makes it. */
  ghost predicate Fits(s: State) {
    var streak := Streak(s.acts);
    && s.failures == FailedPolls(s.acts)
    && Paced(streak)
    && s.wait == WaitAfter(|streak|)
    && s.reconnectAt == (if streak == [] then None else Some(Last(streak).at + WaitAfter(|streak| - 1)))
    && (streak != [] ==> s.Lost())
  }

  lemma {:induction false} WaitsDouble(k: nat)
    ensures WaitAfter(0) == 2 * SECOND && WaitAfter(1) == 4 * SECOND && WaitAfter(2) == 8 * SECOND
    ensures WaitAfter(3) == 16 * SECOND && WaitAfter(4) == 32 * SECOND
    ensures k >= 5 ==> WaitAfter(k) == 60 * SECOND
    ensures k < 5 ==> WaitAfter(k) < 60 * SECOND
  {
    assert WaitAfter(2) == 8 * SECOND;
    assert WaitAfter(4) == 32 * SECOND;
    if k > 5 {
      WaitsDouble(k - 1);
    }
  }

  lemma ActGrows(acts: seq<Act>, act: Act)
    ensures FailedPolls(acts + [act]) == if act.ok then 0 else FailedPolls(acts) + if act.Polled? then 1 else 0
    ensures Streak(acts + [act]) == if act.ok then [] else Streak(acts) + if act.Attempt? then [act] else []
  {
    assert Front(acts + [act]) == acts;
  }

  lemma PacedGrows(streak: seq<Act>, act: Act)
    requires Paced(streak) && act.Attempt? && !act.ok && (act.everyChannel <==> |streak| >= 5)
    requires streak != [] ==> act.at >= Last(streak).at + WaitAfter(|streak| - 1)
    ensures Paced(streak + [act])
  {
  }

  lemma PollFits(s: State, ok: bool)
    requires Fits(s)
    ensures Fits(s.PolledOnce(ok))
  {
    hide FailedPolls, Streak;
    ActGrows(s.acts, Polled(ok));
    assert Streak(s.acts) + [] == Streak(s.acts) && WaitAfter(0) == 2 * SECOND;
  }

  lemma AttemptFits(s: State, ok: bool, at: Time)
    requires Fits(s) && s.Attempts(at)
    ensures Fits(s.Recovered(ok, at))
  {
    var act := Attempt(s.EveryChannel(), ok, at);
    ActGrows(s.acts, act);
    WaitsDouble(|Streak(s.acts)|);
    if !ok {
      PacedGrows(Streak(s.acts), act);
      var streak := Streak(s.acts) + [act];
      assert s.Recovered(ok, at).wait == WaitAfter(|streak|);
    }
  }

  lemma {:induction false} RunFits(ops: seq<Op>)
    ensures Fits(Run(ops))
  {
    if ops != [] {
      RunFits(Front(ops));
      match Last(ops) {
        case Poll(ok) => PollFits(Run(Front(ops)), ok);
        case Recover(ok, at) =>
          if Run(Front(ops)).Attempts(at) {
            AttemptFits(Run(Front(ops)), ok, at);
          }
      }
    }
  }

  function Power2(k: nat): (p: nat)
    ensures k >= 1 ==> p >= 2
  {
    if k == 0 then 1 else 2 * Power2(k - 1)
  }

  /** Seconds from a streak's first attempt before which its `k`-th, counting from one, cannot come. */
  function Earliest(k: nat): nat
    requires k >= 1
  {
    if k <= 6 then (Power2(k) - 2) * SECOND
    else (62 + 60 * (k - 6)) * SECOND
  }

  lemma {:induction false} PacedSpreads(streak: seq<Act>, k: nat)
    requires Paced(streak) && 1 <= k <= |streak|
    ensures streak[k - 1].at >= streak[0].at + Earliest(k)
  {
    if k > 1 {
      PacedSpreads(streak, k - 1);
      WaitsDouble(k - 2);
      assert streak[k - 2 + 1].at >= streak[k - 2].at + WaitAfter(k - 2);
      EarliestSteps(k);
    }
  }

  lemma EarliestSteps(k: nat)
    requires k > 1
    ensures Earliest(k) == Earliest(k - 1) + WaitAfter(k - 2)
  {
    WaitsDouble(k - 2);
    assert Power2(2) == 4;
    assert Power2(4) == 16;
    assert Power2(6) == 64;
  }

  /**
    Reconnect backoff. On every run, the `k`-th failed attempt of a streak comes at least
    2^k - 2 seconds after the first up to the sixth, 62 + 60 (k - 6) from then on, and scans
    every channel exactly from the sixth on.
   */
  lemma Backoff(ops: seq<Op>, k: nat)
    requires 1 <= k <= |Streak(Run(ops).acts)|
    ensures var streak := Streak(Run(ops).acts);
      && streak[k - 1].Attempt? && streak[0].Attempt?
      && streak[k - 1].at >= streak[0].at + Earliest(k)
      && (streak[k - 1].everyChannel <==> k >= 6)
  {
    RunFits(ops);
    PacedSpreads(Streak(Run(ops).acts), k);
  }

  /** A deadline is set exactly when the wait has grown, and only while the dongle is lost. */
  lemma DeadlineMeansLost(ops: seq<Op>)
    ensures var s := Run(ops);
      && (s.reconnectAt.None? <==> s.wait == 2 * SECOND)
      && (s.reconnectAt.Some? ==> s.Lost())
      && (s.Lost() <==> FailedPolls(s.acts) >= 3)
  {
    RunFits(ops);
    WaitsDouble(|Streak(Run(ops).acts)|);
  }

  /** The very next attempt of any streak, failed or not, keeps the pace too. */
  lemma NextAttempt(ops: seq<Op>, at: Time)
    requires Run(ops).Attempts(at)
    ensures var streak := Streak(Run(ops).acts);
      && (streak != [] ==> streak[0].Attempt? && at >= streak[0].at + Earliest(|streak| + 1))
      && (Run(ops).EveryChannel() <==> |streak| >= 5)
  {
    RunFits(ops);
    var streak := Streak(Run(ops).acts);
    WaitsDouble(|streak|);
    if streak != [] {
      PacedSpreads(streak, |streak|);
      EarliestSteps(|streak| + 1);
    }
  }

  /** Act `j`, if an attempt, came while the dongle was lost, kept the pace of its streak, and scanned as it should. */
  ghost predicate Kept(acts: seq<Act>, j: nat)
    requires j < |acts|
  {
    var streak := Streak(acts[..j]);
    acts[j].Attempt? ==>
      && FailedPolls(acts[..j]) >= 3
      && (streak != [] ==> streak[0].Attempt? && acts[j].at >= streak[0].at + Earliest(|streak| + 1))
      && (acts[j].everyChannel <==> |streak| >= 5)
  }

  lemma KeptGrows(acts: seq<Act>, act: Act)
    requires forall j :: 0 <= j < |acts| ==> Kept(acts, j)
    requires Kept(acts + [act], |acts|)
    ensures forall j :: 0 <= j < |acts| + 1 ==> Kept(acts + [act], j)
  {
    var more := acts + [act];
    forall j | 0 <= j < |acts| ensures Kept(more, j) {
      assert more[..j] == acts[..j] && Kept(acts, j);
    }
  }

  /**
    Every attempt of every run, failed or not: it came after three failed polls or more, with `k - 1`
    failed attempts before it in its streak no earlier than the k-th may, and scanned every channel
    exactly from the sixth on.
   */
  lemma {:induction false} EveryAttemptKeepsPace(ops: seq<Op>)
    ensures forall j :: 0 <= j < |Run(ops).acts| ==> Kept(Run(ops).acts, j)
  {
    if ops != [] {
      EveryAttemptKeepsPace(Front(ops));
      var s, t := Run(Front(ops)), Run(ops);
      if t.acts != s.acts {
        assert t.acts == s.acts + [Last(t.acts)] && t.acts[..|s.acts|] == s.acts;
        if Last(ops).Recover? {
          NextAttempt(Front(ops), Last(ops).at);
          DeadlineMeansLost(Front(ops));
        }
        KeptGrows(s.acts, Last(t.acts));
      }
    }
  }
}
