/**
  The worker that runs the loop and the hosts that talk to it: a queue of requests behind a lock,
  a stop flag and a published snapshot. Moves of either side may fall between any two of the other's.
 */
module Protocol {
  import opened Types
  import opened Radio
  import opened Engine
  import EngineHistory
  import EngineTick
  import TickTheorems
  import Shutdown

  /** The dongle the loop was started on, and how it will answer. */
  datatype Setup = Setup(master: Mac, channel: Byte, oracle: Oracle)

  /** Where the worker is. */
  datatype Site =
    | Draining    // about to take the queue
    | Applying    // telling the core the requests taken, then about to tick
    | Publishing  // about to publish the snapshot
    | Checking    // about to look at the stop flag
    | Waiting     // sleeping until the next tick is due
    | Woken       // about to look at the stop flag again
    | Leaving     // about to shut the core down
    | Closing     // about to publish the last snapshot
    | Done

  /** What is shared, where the worker is, and the steps it has put its core through. */
  datatype State = State(
    pending: seq<Request>,
    stop: bool,
    shown: Snapshot,
    site: Site,
    batch: seq<Request>,
    started: Time,
    clock: Time,
    steps: seq<Step>)

  datatype Move =
    | Push(request: Request)
    | Stop
    | Drain(at: Time)
    | ApplyNext
    | TickNow
    | Publish
    | CheckStop
    | Sleep
    | Wake
    | CheckAgain
    | Close(at: Time)
    | PublishLast

  /** The worker's core after these steps. */
  function CoreAfter(setup: Setup, steps: seq<Step>): World {
    Engine.Run(setup.master, setup.channel, steps, setup.oracle)
  }

  function Start(setup: Setup): State {
    State([], false, CoreAfter(setup, []).snapshot, Draining, [], 0, 0, [])
  }

  predicate ByHost(move: Move) {
    move.Push? || move.Stop?
  }

  predicate Enabled(s: State, move: Move) {
    match move
    case Push(_) => true
    case Stop => true
    case Drain(at) => s.site == Draining && s.clock <= at
    case ApplyNext => s.site == Applying && s.batch != []
    case TickNow => s.site == Applying && s.batch == []
    case Publish => s.site == Publishing
    case CheckStop => s.site == Checking
    case Sleep => s.site == Waiting && !s.stop
    case Wake => s.site == Waiting
    case CheckAgain => s.site == Woken
    case Close(at) => s.site == Leaving && s.clock <= at
    case PublishLast => s.site == Closing
  }

  function Next(setup: Setup, s: State, move: Move): State
    requires Enabled(s, move)
  {
    match move
    case Push(request) => s.(pending := s.pending + [request])
    case Stop => s.(stop := true)
    case Drain(at) => s.(batch := s.pending, pending := [], started := at, clock := at, site := Applying)
    case ApplyNext => s.(steps := s.steps + [Asked(s.batch[0])], batch := s.batch[1..])
    case TickNow => s.(steps := s.steps + [Ticked(s.started)], site := Publishing)
    case Publish => s.(shown := CoreAfter(setup, s.steps).snapshot, site := Checking)
    case CheckStop => s.(site := if s.stop then Leaving else Waiting)
    case Sleep => s
    case Wake => s.(site := Woken)
    case CheckAgain => s.(site := if s.stop then Leaving else Draining)
    case Close(at) => s.(steps := s.steps + [Stopped(at)], clock := at, site := Closing)
    case PublishLast => s.(shown := CoreAfter(setup, s.steps).snapshot, site := Done)
  }

  /** The state these moves lead to, if each was possible where it was made. */
  function Play(setup: Setup, moves: seq<Move>): Option<State> {
    if moves == [] then Some(Start(setup))
    else
      var before := Play(setup, Front(moves));
      if before.Some? && Enabled(before.value, Last(moves)) then Some(Next(setup, before.value, Last(moves))) else None
  }

  /** What the hosts pushed, in order. */
  function Pushed(moves: seq<Move>): seq<Request> {
    if moves == [] then []
    else Pushed(Front(moves)) + if Last(moves).Push? then [Last(moves).request] else []
  }

  /** What they had pushed when the worker last took the queue. */
  function PushedByDrain(moves: seq<Move>): seq<Request> {
    if moves == [] then []
    else if Last(moves).Drain? then Pushed(Front(moves))
    else PushedByDrain(Front(moves))
  }

  predicate StopSet(moves: seq<Move>) {
    moves != [] && (Last(moves).Stop? || StopSet(Front(moves)))
  }

  /** Ticks that begin with the stop flag set. */
  function LateTicks(moves: seq<Move>): nat {
    if moves == [] then 0
    else LateTicks(Front(moves)) + if Last(moves).TickNow? && StopSet(Front(moves)) then 1 else 0
  }

  /** The requests among the steps of a run. */
  function Requests(steps: seq<Step>): seq<Request> {
    if steps == [] then []
    else Requests(Front(steps)) + if Last(steps).Asked? then [Last(steps).request] else []
  }

  predicate NoStop(steps: seq<Step>) {
    forall step :: step in steps ==> !step.Stopped?
  }

  /** What holds wherever the two sides are. */
  ghost predicate Fits(s: State, moves: seq<Move>) {
    && Engine.Timed(s.steps) && Engine.Latest(s.steps) <= s.clock
    && (s.site == Applying ==> s.started == s.clock)
    && Requests(s.steps) + s.batch == PushedByDrain(moves)
    && PushedByDrain(moves) + s.pending == Pushed(moves)
    && (s.batch != [] ==> s.site == Applying)
    && (s.stop <==> StopSet(moves))
    && (s.site in {Publishing, Closing} ==> s.steps != [] && !Last(s.steps).Asked?)
    && (if s.site in {Closing, Done} then s.steps != [] && Last(s.steps).Stopped? && NoStop(Front(s.steps))
        else NoStop(s.steps))
  }

  lemma DrainFits(setup: Setup, s: State, moves: seq<Move>, move: Move)
    requires Fits(s, moves) && Enabled(s, move) && move.Drain?
    ensures Fits(Next(setup, s, move), moves + [move])
  {
    assert Front(moves + [move]) == moves;
    assert Requests(s.steps) + [] == Requests(s.steps) && Pushed(moves) + [] == Pushed(moves);
  }

  /** A move that puts the core through one more step. */
  lemma StepFits(setup: Setup, s: State, moves: seq<Move>, move: Move)
    requires Fits(s, moves) && Enabled(s, move) && (move.ApplyNext? || move.TickNow? || move.Close?)
    ensures Fits(Next(setup, s, move), moves + [move])
  {
    assert Front(moves + [move]) == moves;
    var t := Next(setup, s, move);
    assert Front(t.steps) == s.steps;
    if move.ApplyNext? {
      assert Requests(s.steps) + [s.batch[0]] + s.batch[1..] == Requests(s.steps) + s.batch;
    }
  }

  lemma NextFits(setup: Setup, s: State, moves: seq<Move>, move: Move)
    requires Fits(s, moves) && Enabled(s, move)
    ensures Fits(Next(setup, s, move), moves + [move])
  {
    hide CoreAfter;
    if move.Drain? {
      DrainFits(setup, s, moves, move);
    } else if move.ApplyNext? || move.TickNow? || move.Close? {
      StepFits(setup, s, moves, move);
    } else {
      assert Front(moves + [move]) == moves;
      if move.Push? {
        assert PushedByDrain(moves) + (s.pending + [move.request]) == PushedByDrain(moves) + s.pending + [move.request];
      }
    }
  }

  lemma {:induction false} PlayFits(setup: Setup, moves: seq<Move>)
    requires Play(setup, moves).Some?
    ensures Fits(Play(setup, moves).value, moves)
  {
    if moves != [] {
      PlayFits(setup, Front(moves));
      assert moves == Front(moves) + [Last(moves)];
      NextFits(setup, Play(setup, Front(moves)).value, Front(moves), Last(moves));
    }
  }

  /**
    However the two sides' moves fall, what has been applied, what is taken and waits to be
    applied, and what is queued, in that order, is exactly what was pushed.
   */
  lemma NothingIsLost(setup: Setup, moves: seq<Move>)
    requires Play(setup, moves).Some?
    ensures var s := Play(setup, moves).value;
      Requests(s.steps) + s.batch + s.pending == Pushed(moves)
  {
    PlayFits(setup, moves);
  }

  /**
    On every run the wishes are the last-writer-wins fold of the requests made: no poll, sweep,
    failure, reconnect or stop changes them.
   */
  lemma {:induction false} WishesAreRequests(master: Mac, channel: Byte, steps: seq<Step>, oracle: Oracle)
    requires Engine.Timed(steps)
    ensures Engine.Run(master, channel, steps, oracle).wanted == Wishes(Requests(steps))
  {
    if steps != [] {
      hide Engine.Apply, Wishes, EngineHistory.PartsFit, EngineHistory.LogsFit;
      WishesAreRequests(master, channel, Front(steps), oracle);
      EngineHistory.RunFits(master, channel, Front(steps), oracle);
      var w := Engine.Run(master, channel, Front(steps), oracle);
      EngineHistory.LaterFits(w, Engine.Latest(Front(steps)), Engine.Latest(steps));
      StepWishes(w, Last(steps), oracle, Engine.Latest(steps));
      OneMoreWish(steps);
    } else {
      assert Wishes([]) == map[];
    }
  }

  lemma OneMoreWish(steps: seq<Step>)
    requires steps != []
    ensures Wishes(Requests(steps)) == match Last(steps)
      case Asked(Want(mac, percent)) => Wishes(Requests(Front(steps)))[mac := Clamped(percent)]
      case Asked(Release(mac)) => Wishes(Requests(Front(steps))) - {mac}
      case _ => Wishes(Requests(Front(steps)))
  {
    if Last(steps).Asked? {
      assert Front(Requests(steps)) == Requests(Front(steps)) && Last(Requests(steps)) == Last(steps).request;
    } else {
      assert Requests(steps) == Requests(Front(steps));
    }
  }

  /** Only a request changes the wishes. */
  lemma StepWishes(w: World, step: Step, oracle: Oracle, now: Time)
    requires EngineHistory.Consistent(w, now) && (!step.Asked? ==> step.at == now)
    ensures Engine.Apply(w, step, oracle).wanted == match step
      case Asked(Want(mac, percent)) => w.wanted[mac := Clamped(percent)]
      case Asked(Release(mac)) => w.wanted - {mac}
      case _ => w.wanted
  {
    hide World.Tick, World.Shutdown, EngineHistory.PartsFit, EngineHistory.LogsFit;
    match step {
      case Asked(request) =>
      case Ticked(at) => TickTheorems.TickSettles(w, oracle, at);
      case Stopped(at) => Shutdown.ShutdownIs(w, oracle, at);
    }
  }

  /**
    Each tick runs on the last-writer-wins fold of exactly the requests pushed before the queue was
    last taken: a group is wished for exactly if the last of them about it asks for it, at the
    percentage asked, held to 30 to 100.
   */
  lemma TickSeesWishes(setup: Setup, moves: seq<Move>)
    requires Play(setup, moves + [TickNow]).Some?
    ensures Play(setup, moves).Some?
    ensures var s, t := Play(setup, moves).value, Play(setup, moves + [TickNow]).value;
      var core := CoreAfter(setup, s.steps);
      && core.wanted == Wishes(PushedByDrain(moves))
      && CoreAfter(setup, t.steps) == core.Tick(setup.oracle, s.started)
      && forall mac :: var last := EngineTick.LastAbout(PushedByDrain(moves), mac);
           && (mac in core.wanted <==> last.Some? && last.value.Want?)
           && (mac in core.wanted ==> EngineTick.Grants(last.value.percent, core.wanted[mac]))
  {
    hide World.Tick;
    assert Front(moves + [TickNow]) == moves;
    PlayFits(setup, moves);
    var s, t := Play(setup, moves).value, Play(setup, moves + [TickNow]).value;
    WishesAreRequests(setup.master, setup.channel, s.steps, setup.oracle);
    forall mac
      ensures var last, wishes := EngineTick.LastAbout(PushedByDrain(moves), mac), Wishes(PushedByDrain(moves));
        && (mac in wishes <==> last.Some? && last.value.Want?)
        && (mac in wishes ==> EngineTick.Grants(last.value.percent, wishes[mac]))
    {
      EngineTick.WishIsTheLastAsked(PushedByDrain(moves), mac);
    }
    assert Requests(s.steps) + s.batch == Requests(s.steps);
    assert Front(t.steps) == s.steps;
  }

  /** Whether a tick is still to begin before the worker next looks at the stop flag. */
  predicate TickAhead(site: Site) {
    site == Draining || site == Applying
  }

  /** However late the stop flag is set, at most one tick begins after it. */
  lemma {:induction false} OneTickAfterStop(setup: Setup, moves: seq<Move>)
    requires Play(setup, moves).Some?
    ensures LateTicks(moves) <= 1
    ensures var s := Play(setup, moves).value;
      && (!s.stop ==> LateTicks(moves) == 0)
      && (TickAhead(s.site) || s.site in {Waiting, Woken} ==> LateTicks(moves) == 0)
  {
    if moves != [] {
      hide Fits, CoreAfter;
      OneTickAfterStop(setup, Front(moves));
      StopIsSet(setup, Front(moves));
    }
  }

  lemma StopIsSet(setup: Setup, moves: seq<Move>)
    requires Play(setup, moves).Some?
    ensures Play(setup, moves).value.stop <==> StopSet(moves)
  {
    PlayFits(setup, moves);
  }

  /** The core is shut down at most once, and never asked or ticked again after that. */
  lemma ShutdownIsLast(setup: Setup, moves: seq<Move>, i: nat)
    requires Play(setup, moves).Some?
    requires i < |Play(setup, moves).value.steps| && Play(setup, moves).value.steps[i].Stopped?
    ensures i == |Play(setup, moves).value.steps| - 1
    ensures Play(setup, moves).value.site in {Closing, Done}
  {
    PlayFits(setup, moves);
    var s := Play(setup, moves).value;
    assert forall k :: 0 <= k < |s.steps| - 1 ==> Front(s.steps)[k] in Front(s.steps);
  }

  /**
    When the worker is done it has been shut down, and has applied what was pushed before its last
    drain and no more.
   */
  lemma LateRequestsAreDropped(setup: Setup, moves: seq<Move>)
    requires Play(setup, moves).Some? && Play(setup, moves).value.site == Done
    ensures var s := Play(setup, moves).value;
      && s.steps != [] && Last(s.steps).Stopped?
      && Requests(s.steps) == PushedByDrain(moves)
      && (Requests(s.steps) == Pushed(moves) <==> s.pending == [])
  {
    PlayFits(setup, moves);
    var s := Play(setup, moves).value;
    assert Requests(s.steps) + s.batch == Requests(s.steps);
    assert |PushedByDrain(moves) + s.pending| == |PushedByDrain(moves)| + |s.pending|;
  }

  /** Worker moves still to come once the stop flag is set. */
  function Left(s: State): nat {
    match s.site
    case Draining => 7 + |s.pending|
    case Applying => 6 + |s.batch|
    case Publishing => 5
    case Checking => 4
    case Waiting => 5
    case Woken => 4
    case Leaving => 3
    case Closing => 2
    case Done => 0
  }

  /**
    A set stop flag is obeyed: until it is done the worker always has a move, each of its moves
    brings the end nearer, and a host can put it off only by pushing before the queue is taken.
   */
  lemma StopIsObeyed(setup: Setup, s: State, move: Move)
    requires s.stop && Enabled(s, move)
    ensures Next(setup, s, move).stop
    ensures !ByHost(move) ==> Left(Next(setup, s, move)) < Left(s)
    ensures ByHost(move) ==>
      Left(Next(setup, s, move)) == Left(s) + if move.Push? && s.site == Draining then 1 else 0
    ensures s.site != Done ==> exists m :: !ByHost(m) && Enabled(s, m)
  {
    hide CoreAfter;
    if s.site != Done {
      var m := match s.site
        case Draining => Drain(s.clock)
        case Applying => if s.batch == [] then TickNow else ApplyNext
        case Publishing => Publish
        case Checking => CheckStop
        case Waiting => Wake
        case Woken => CheckAgain
        case Leaving => Close(s.clock)
        case _ => PublishLast;
      assert Enabled(s, m) && !ByHost(m);
    }
  }

  /**
    The snapshot shown is that of the core after `k` steps, the last of them a tick or the stop; only
    requests, and a tick or stop just made, came after.
   */
  ghost predicate ShownIs(setup: Setup, s: State, k: nat) {
    && k <= |s.steps|
    && s.shown == CoreAfter(setup, s.steps[..k]).snapshot
    && (k > 0 ==> !s.steps[k - 1].Asked?)
    && forall i :: k <= i < |s.steps| ==> s.steps[i].Asked? || (i == |s.steps| - 1 && s.site in {Publishing, Closing})
  }

  /** Hosts are always shown the core as a tick or the stop left it, never between, and at most one behind. */
  lemma {:induction false} HostsSeeTicks(setup: Setup, moves: seq<Move>) returns (k: nat)
    requires Play(setup, moves).Some?
    ensures ShownIs(setup, Play(setup, moves).value, k)
  {
    if moves == [] {
      k := 0;
    } else {
      hide CoreAfter, Next, ShownIs, Fits;
      k := HostsSeeTicks(setup, Front(moves));
      PlayFits(setup, Front(moves));
      k := ShownNext(setup, Play(setup, Front(moves)).value, Front(moves), Last(moves), k);
    }
  }

  lemma ShownNext(setup: Setup, s: State, moves: seq<Move>, move: Move, k: nat) returns (next: nat)
    requires Fits(s, moves) && ShownIs(setup, s, k) && Enabled(s, move)
    ensures ShownIs(setup, Next(setup, s, move), next)
  {
    hide CoreAfter;
    var t := Next(setup, s, move);
    if move.Publish? || move.PublishLast? {
      next := |s.steps|;
      assert s.steps[..next] == s.steps;
    } else {
      next := k;
      assert t.steps[..k] == s.steps[..k];
    }
  }
}
