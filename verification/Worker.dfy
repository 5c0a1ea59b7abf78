/** The worker's whole life on one core: what the core holds at the end is what a run of steps makes it. */
module Worker {
  import opened Types
  import opened Radio
  import opened Engine
  import C = Core

  /** One turn of the loop: the requests taken from the queue, and when it began. */
  datatype Pass = Pass(batch: seq<Request>, started: Time)

  function Asks(requests: seq<Request>): (steps: seq<Step>)
    ensures |steps| == |requests|
  {
    seq(|requests|, i requires 0 <= i < |requests| => Asked(requests[i]))
  }

  /** The steps these turns put the core through. */
  function StepsOf(turns: seq<Pass>): seq<Step> {
    if turns == [] then []
    else StepsOf(Front(turns)) + Asks(Last(turns).batch) + [Ticked(Last(turns).started)]
  }

  lemma OneMoreStep(master: Mac, channel: Byte, steps: seq<Step>, step: Step, oracle: Oracle)
    ensures Engine.Run(master, channel, steps + [step], oracle)
      == Engine.Apply(Engine.Run(master, channel, steps, oracle), step, oracle)
  {
    hide Engine.Apply;
    assert Front(steps + [step]) == steps;
  }

  /** Telling the core a batch of requests is so many steps of its run. */
  lemma {:induction false} AskingIsRunning(master: Mac, channel: Byte, steps: seq<Step>, batch: seq<Request>,
                                           oracle: Oracle)
    ensures C.AskedAll(Engine.Run(master, channel, steps, oracle), batch, oracle)
      == Engine.Run(master, channel, steps + Asks(batch), oracle)
  {
    hide Engine.Apply, Engine.Run;
    if batch == [] {
      assert steps + Asks(batch) == steps;
    } else {
      AskingIsRunning(master, channel, steps, Front(batch), oracle);
      OneMoreStep(master, channel, steps + Asks(Front(batch)), Asked(Last(batch)), oracle);
      assert steps + Asks(batch) == steps + Asks(Front(batch)) + [Asked(Last(batch))];
    }
  }

  /** So one turn takes a core from one run to a longer one. */
  lemma TurnIsRun(master: Mac, channel: Byte, turns: seq<Pass>, turn: Pass, oracle: Oracle)
    ensures var w := Engine.Run(master, channel, StepsOf(turns), oracle);
      C.AskedAll(w, turn.batch, oracle).Tick(oracle, turn.started)
      == Engine.Run(master, channel, StepsOf(turns + [turn]), oracle)
  {
    hide World.Tick, Engine.Run;
    assert Front(turns + [turn]) == turns;
    var asked := StepsOf(turns) + Asks(turn.batch);
    AskingIsRunning(master, channel, StepsOf(turns), turn.batch, oracle);
    OneMoreStep(master, channel, asked, Ticked(turn.started), oracle);
  }

  /**
    The worker's thread, with what it takes from the queue at each turn: it starts a core, turns
    the loop, logs what each turn says, shuts the core down and logs the rest. The core ends where
    the run of those steps does, and every event of that run is logged, once and in order.
   */
  method Work(link: Link, turns: seq<Pass>, stopAt: Time) returns (core: C.Core, log: seq<Event>)
    requires link.Valid() && link.calls == []
    modifies link
    ensures core.events == []
    ensures var steps := StepsOf(turns) + [Stopped(stopAt)];
      var end := Engine.Run(old(link.masterMac), old(link.channel), steps, link.oracle);
      core.Holds(end, log, link) && end.events == log
  {
    hide Engine.Run, World.Tick, World.Shutdown;
    ghost var master, channel := link.masterMac, link.channel;
    StartIsRun(master, channel, link.oracle);
    core := new C.Core(link);
    log := [];
    for k := 0 to |turns|
      invariant fresh(core) && fresh(core.tracker)
      invariant core.Holds(Engine.Run(master, channel, StepsOf(turns[..k]), link.oracle), log, link)
    {
      ghost var so := Engine.Run(master, channel, StepsOf(turns[..k]), link.oracle);
      TurnIsRun(master, channel, turns[..k], turns[k], link.oracle);
      assert turns[..k] + [turns[k]] == turns[..k + 1];
      core.Turn(link, turns[k].batch, turns[k].started, so, log);
      var batch := core.TakeEvents(Engine.Run(master, channel, StepsOf(turns[..k + 1]), link.oracle), log, link);
      log := log + batch;
    }
    assert turns[..|turns|] == turns;
    ghost var ended := Engine.Run(master, channel, StepsOf(turns), link.oracle);
    core.Shutdown(link, stopAt, ended, log);
    OneMoreStep(master, channel, StepsOf(turns), Stopped(stopAt), link.oracle);
    var rest := core.TakeEvents(ended.Shutdown(link.oracle, stopAt), log, link);
    log := log + rest;
  }

  lemma StartIsRun(master: Mac, channel: Byte, oracle: Oracle)
    ensures Engine.Run(master, channel, StepsOf([]), oracle) == NewWorld(master, channel)
  {
  }
}
