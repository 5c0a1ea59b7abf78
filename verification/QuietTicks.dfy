/**
  Ticks whose drive finds nothing to do: the calls they make, and what these leave of the heartbeat,
  the recovery and the histories, in closed form.
 */
module QuietTicks {
  import opened Types
  import opened Groups
  import opened Radio
  import opened Engine
  import opened EngineHistory
  import opened EngineTick
  import opened TickTheorems
  import opened Ready
  import Solo
  import Heartbeat
  import Recovery
  import FailLog

  /** What such a tick depends on and changes. */
  datatype Gist = Gist(
    calls: nat, master: Mac, beat: Heartbeat.State, recovery: Recovery.State,
    failures: seq<FailLog.Op>, heard: seq<Solo.Op>)

  function GistOf(w: World): Gist {
    Gist(|w.radio.calls|, w.radio.masterMac, w.beat, w.recovery, w.past.failures, w.past.tracker)
  }

  function Beaten(g: Gist, oracle: Oracle, now: Time): Gist {
    var error := oracle(g.calls).sendError;
    if !g.beat.Due(now) then g
    else g.(calls := g.calls + 1, beat := g.beat.Beaten(error.None?, now),
            failures := g.failures
              + if error.None? then [] else [FailLog.Fail(FailLog.HeartbeatFailed(error.value), now)])
  }

  function Polled(g: Gist, oracle: Oracle, now: Time): Gist {
    var result := oracle(g.calls).poll;
    g.(calls := g.calls + 1, recovery := g.recovery.PolledOnce(result.Ok?),
       failures := g.failures + (if result.Ok? then [] else [FailLog.Fail(FailLog.PollFailed(result.error), now)]),
       heard := g.heard + if result.Ok? then [Solo.Observe(result.value.devices, now)] else [])
  }

  function Recovered(g: Gist, oracle: Oracle, now: Time): Gist {
    var result := oracle(g.calls).reconnect;
    if !g.recovery.Attempts(now) then g
    else
      var told := g.(calls := g.calls + 1, recovery := g.recovery.Recovered(result.Ok?, now));
      match result
      case Ok((master, _)) => told.(master := master, beat := g.beat.Reconnected())
      case Err(error) =>
        var message := FailLog.ReconnectFailed(g.recovery.EveryChannel(), error, g.recovery.wait / SECOND);
        told.(failures := g.failures + [FailLog.Fail(message, now)])
  }

  function QuietTick(g: Gist, oracle: Oracle, now: Time): Gist {
    var polled := Polled(Beaten(g, oracle, now), oracle, now);
    var after := Recovered(polled.(heard := polled.heard + [Solo.Sweep(now)]), oracle, now);
    after.(failures := after.failures + [FailLog.Flush(now)])
  }

  // Phase by phase.

  lemma BeatGist(w: World, oracle: Oracle, now: Time)
    ensures GistOf(w.HeartbeatPhase(oracle, now)) == Beaten(GistOf(w), oracle, now)
  {
    assert w.past.failures + [] == w.past.failures;
  }

  lemma SkipGist(w: World, skipped: Byte, now: Time)
    ensures GistOf(w.SkipNote(skipped, now)) == GistOf(w) && w.SkipNote(skipped, now).tracker == w.tracker
  {
  }

  lemma PollGist(w: World, oracle: Oracle, now: Time)
    ensures GistOf(w.PollPhase(oracle, now)) == Polled(GistOf(w), oracle, now)
  {
    hide World.SkipNote, Solo.Apply;
    assert w.past.failures + [] == w.past.failures && w.past.tracker + [] == w.past.tracker;
    var (after, result) := w.radio.Poll(oracle, now);
    var told := w.(radio := after).Recovering(Recovery.Poll(result.Ok?));
    if result.Ok? {
      SkipGist(told.(snapshot := w.snapshot.(polls := w.snapshot.polls + 1)), result.value.skipped, now);
    }
  }

  lemma SweepGist(w: World, now: Time)
    ensures GistOf(w.SweepPhase(now).Judge()) == GistOf(w).(heard := w.past.tracker + [Solo.Sweep(now)])
  {
  }

  lemma RecoverGist(w: World, oracle: Oracle, now: Time)
    ensures GistOf(w.RecoverPhase(oracle, now)) == Recovered(GistOf(w), oracle, now)
    ensures w.RecoverPhase(oracle, now).tracker == w.tracker
  {
  }

  lemma FlushGist(w: World, now: Time)
    ensures var v := w.FlushChanges(now).FlushFails(now).Publish(now);
      && GistOf(v) == GistOf(w).(failures := w.past.failures + [FailLog.Flush(now)])
      && v.tracker == w.tracker
  {
  }

  /** The drive leaves everything as it finds it. */
  predicate DrivesNobody(w: World, oracle: Oracle, now: Time) {
    w.AtDrive(oracle, now).DrivePhase(oracle, now) == w.AtDrive(oracle, now)
  }

  lemma TickGist(w: World, oracle: Oracle, now: Time)
    requires DrivesNobody(w, oracle, now)
    ensures GistOf(w.Tick(oracle, now)) == QuietTick(GistOf(w), oracle, now)
    ensures w.Tick(oracle, now).tracker == w.AtDrive(oracle, now).tracker
  {
    hide World.HeartbeatPhase, World.PollPhase, World.SweepPhase, World.Judge, World.RecoverPhase;
    hide World.FlushChanges, World.FlushFails, World.Publish, World.DrivePhase, Beaten, Polled, Recovered;
    var begun := w.(snapshot := w.snapshot.(ticks := w.snapshot.ticks + 1));
    assert GistOf(begun) == GistOf(w);
    BeatGist(begun, oracle, now);
    PollGist(begun.HeartbeatPhase(oracle, now), oracle, now);
    SweepGist(w.Heard(oracle, now), now);
    var ready := w.AtDrive(oracle, now);
    RecoverGist(ready, oracle, now);
    FlushGist(ready.RecoverPhase(oracle, now), now);
  }

  // Two reasons for it: nobody is there, or nobody is wanted.

  predicate HearsNobody(t: Tracker) {
    t.groups == [] && t.order == []
  }

  predicate BringsNobody(result: Result<Reply, string>) {
    result.Ok? ==> result.value.devices == []
  }

  lemma RebuiltNobody(t: Tracker, now: Time)
    requires HearsNobody(t)
    ensures HearsNobody(t.Rebuilt(now)) && HearsNobody(t.Observed([], now)) && HearsNobody(t.Swept(now))
  {
    assert t.(groups := []) == t;
    assert Macs(t.Joining(now)) == [];
  }

  lemma NobodyIsThere(w: World, oracle: Oracle, now: Time)
    requires HearsNobody(w.tracker) && BringsNobody(Answered(w, oracle, now))
    ensures DrivesNobody(w, oracle, now) && HearsNobody(w.AtDrive(oracle, now).tracker)
  {
    hide World.AtDrive;
    ReadyIs(w, oracle, now);
    RebuiltNobody(w.tracker, now);
    assert w.AtDrive(oracle, now).tracker.DrivenFans() == [];
  }

  lemma {:induction false} NobodyDriven(w: World, macs: seq<Mac>, oracle: Oracle, now: Time)
    requires !w.alarm && w.wanted == map[]
    ensures w.DriveAll(macs, oracle, now) == w
  {
    if macs != [] {
      NobodyDriven(w, Front(macs), oracle, now);
    }
  }

  lemma NobodyIsWanted(w: World, oracle: Oracle, now: Time)
    requires Consistent(w, now) && w.wanted == map[] && Answered(w, oracle, now).Ok?
    ensures DrivesNobody(w, oracle, now)
  {
    hide World.AtDrive, World.Tick, PartsFit, LogsFit;
    ReadyIs(w, oracle, now);
    TickSettles(w, oracle, now);
    NobodyDriven(w.AtDrive(oracle, now), FanMacs(w.AtDrive(oracle, now)), oracle, now);
  }

  // In a run.

  lemma MoreTimed(steps: seq<Step>, step: Step)
    ensures Engine.Timed(steps + [step])
      <==> Engine.Timed(steps) && (!step.Asked? ==> Engine.Latest(steps) <= step.at)
    ensures Engine.Latest(steps + [step]) == if step.Asked? then Engine.Latest(steps) else step.at
  {
    assert Front(steps + [step]) == steps;
  }

  lemma OneMoreTick(master: Mac, channel: Byte, steps: seq<Step>, at: Time, oracle: Oracle)
    requires Engine.Timed(steps) && Engine.Latest(steps) <= at
    ensures var after := steps + [Ticked(at)];
      && Engine.Timed(after) && Engine.Latest(after) == at
      && Engine.Run(master, channel, after, oracle) == Engine.Run(master, channel, steps, oracle).Tick(oracle, at)
  {
    hide World.Tick;
    MoreTimed(steps, Ticked(at));
    assert Front(steps + [Ticked(at)]) == steps;
  }

  /** One more tick that drives nobody. */
  lemma QuietRun(master: Mac, channel: Byte, steps: seq<Step>, at: Time, oracle: Oracle)
    requires Engine.Timed(steps) && Engine.Latest(steps) <= at
    requires DrivesNobody(Engine.Run(master, channel, steps, oracle), oracle, at)
    ensures var after, w := steps + [Ticked(at)], Engine.Run(master, channel, steps, oracle);
      var v := Engine.Run(master, channel, after, oracle);
      && Engine.Timed(after) && Engine.Latest(after) == at
      && v == w.Tick(oracle, at)
      && GistOf(v) == QuietTick(GistOf(w), oracle, at) && v.wanted == w.wanted
  {
    hide World.Tick, GistOf, QuietTick, DrivesNobody, PartsFit, LogsFit;
    var w := Engine.Run(master, channel, steps, oracle);
    OneMoreTick(master, channel, steps, at, oracle);
    TickGist(w, oracle, at);
    RunFits(master, channel, steps, oracle);
    LaterFits(w, Engine.Latest(steps), at);
    TickSettles(w, oracle, at);
  }

  /** One more tick that hears nobody. */
  lemma EmptyRun(master: Mac, channel: Byte, steps: seq<Step>, at: Time, oracle: Oracle)
    requires Engine.Timed(steps) && Engine.Latest(steps) <= at
    requires var w := Engine.Run(master, channel, steps, oracle);
      HearsNobody(w.tracker) && BringsNobody(oracle(Beaten(GistOf(w), oracle, at).calls).poll)
    ensures var after, w := steps + [Ticked(at)], Engine.Run(master, channel, steps, oracle);
      var v := Engine.Run(master, channel, after, oracle);
      && Engine.Timed(after) && Engine.Latest(after) == at
      && v == w.Tick(oracle, at) && HearsNobody(v.tracker)
      && GistOf(v) == QuietTick(GistOf(w), oracle, at) && v.wanted == w.wanted
  {
    hide World.Tick, World.AtDrive, QuietTick, DrivesNobody, HearsNobody;
    var w := Engine.Run(master, channel, steps, oracle);
    NobodyIsThere(w, oracle, at);
    TickGist(w, oracle, at);
    QuietRun(master, channel, steps, at, oracle);
  }
}
