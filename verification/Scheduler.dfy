/** The scheduler goroutine driving the gate's schedule source. The environment is a script
    of one-nanosecond clock ticks, operator calls and a possible cancellation; a sleep wakes
    exactly at its deadline. */
module Scheduler {
  import opened Basics
  import opened PauseGate
  import BlockTimer
  import Sched = Schedule

  datatype Event = Tick | OperatorPause | OperatorResume | Cancel

  /** What holds during the nanosecond that starts at `at`. */
  datatype Observation = Observation(at: int, open: bool, op: bool, sched: bool)

  datatype End = Slept | Cancelled | ScriptOver

  function Ticks(env: seq<Event>): nat {
    if env == [] then 0 else Ticks(env[..|env| - 1]) + if env[|env| - 1].Tick? then 1 else 0
  }

  function OperatorPaused(op: bool, env: seq<Event>): bool {
    if env == [] then op
    else match env[|env| - 1]
      case OperatorPause => true
      case OperatorResume => false
      case _ => OperatorPaused(op, env[..|env| - 1])
  }

  lemma OneMore(op: bool, env: seq<Event>, n: nat)
    requires n < |env|
    ensures Ticks(env[..n + 1]) == Ticks(env[..n]) + if env[n].Tick? then 1 else 0
    ensures OperatorPaused(op, env[..n + 1]) ==
      (if env[n].OperatorPause? then true else if env[n].OperatorResume? then false else OperatorPaused(op, env[..n]))
  {
    assert env[..n + 1][..n] == env[..n] && env[..n + 1][n] == env[n];
  }

  lemma StartOfScript(op: bool, env: seq<Event>)
    ensures Ticks(env[..0]) == 0 && OperatorPaused(op, env[..0]) == op
  {
    assert env[..0] == [];
  }

  /** The gate agrees with the schedule at this instant. */
  predicate Agrees(s: Sched.Schedule, o: Observation)
    requires Sched.Valid(s)
  {
    && (o.sched <==> !Sched.Active(s, o.at))
    && (o.open <==> !o.op && Sched.Active(s, o.at))
  }

  /** One observation for every tick so far, in order and without gaps, each agreeing with
      the schedule and with the operator's latest call. */
  ghost predicate Faithful(s: Sched.Schedule, start: int, op: bool, env: seq<Event>, used: nat, trace: seq<Observation>)
    requires Sched.Valid(s) && used <= |env|
  {
    && |trace| == Ticks(env[..used])
    && (forall i | 0 <= i < |trace| :: trace[i].at == start + i && Agrees(s, trace[i]))
    && (forall k | 0 <= k < used && env[k].Tick? ::
          Ticks(env[..k]) < |trace| && trace[Ticks(env[..k])].op == OperatorPaused(op, env[..k]))
  }

  // ---------- the gate calls made meanwhile, as a script for the block timer ----------

  /** Each nanosecond of the script passes with the schedule source paused exactly while the
      schedule is inactive. */
  ghost predicate InTune(s: Sched.Schedule, start: int, f: BlockTimer.Flags, script: seq<BlockTimer.Event>)
    requires Sched.Valid(s)
  {
    script != [] ==>
      var front, e := script[..|script| - 1], script[|script| - 1];
      && InTune(s, start, f, front)
      && (e.Tick? ==> e.dt == 1
                      && (BlockTimer.FlagsAfter(f, front).sched
                          <==> !Sched.Active(s, start + BlockTimer.Elapsed(front))))
  }

  /** What an event of the script is to the environment: nothing, for the scheduler's own calls. */
  function OutsideOf(e: BlockTimer.Event): seq<Event> {
    match e
    case Tick(_) => [Tick]
    case Pause(Operator) => [OperatorPause]
    case Resume(Operator) => [OperatorResume]
    case Cancel => [Cancel]
    case _ => []
  }

  /** The script without the scheduler's own calls. */
  function Outside(script: seq<BlockTimer.Event>): seq<Event> {
    if script == [] then [] else Outside(script[..|script| - 1]) + OutsideOf(script[|script| - 1])
  }

  function Inside(e: Event): BlockTimer.Event {
    match e
    case Tick => BlockTimer.Tick(1)
    case OperatorPause => BlockTimer.Pause(Operator)
    case OperatorResume => BlockTimer.Resume(Operator)
    case Cancel => BlockTimer.Cancel
  }

  /** The script is what the environment did in `env[..used]` and the scheduler's calls, in order,
      and has brought the gate to `now`. */
  ghost predicate Scripted(s: Sched.Schedule, start: int, f: BlockTimer.Flags, env: seq<Event>, used: nat,
                           script: seq<BlockTimer.Event>, now: BlockTimer.Flags)
    requires Sched.Valid(s) && used <= |env|
  {
    && InTune(s, start, f, script) && Outside(script) == env[..used]
    && BlockTimer.FlagsAfter(f, script) == now && BlockTimer.Elapsed(script) == Ticks(env[..used])
  }

  lemma ScriptAppend(f: BlockTimer.Flags, script: seq<BlockTimer.Event>, e: BlockTimer.Event)
    ensures BlockTimer.FlagsAfter(f, script + [e]) == BlockTimer.FlagStep(BlockTimer.FlagsAfter(f, script), e)
    ensures BlockTimer.Elapsed(script + [e]) == BlockTimer.Elapsed(script) + if e.Tick? then e.dt else 0
    ensures (script + [e])[..|script|] == script
  {
    assert (script + [e])[..|script|] == script;
  }

  /** One event of the environment. */
  lemma ScriptedEvent(s: Sched.Schedule, start: int, f: BlockTimer.Flags, env: seq<Event>, used: nat,
                      script: seq<BlockTimer.Event>, now: BlockTimer.Flags)
    requires Sched.Valid(s) && used < |env| && Scripted(s, start, f, env, used, script, now)
    requires env[used].Tick? ==> (now.sched <==> !Sched.Active(s, start + Ticks(env[..used])))
    ensures Scripted(s, start, f, env, used + 1, script + [Inside(env[used])],
                     BlockTimer.FlagStep(now, Inside(env[used])))
  {
    hide Sched.Active;
    ScriptAppend(f, script, Inside(env[used]));
    OneMore(false, env, used);
    assert env[..used + 1] == env[..used] + [env[used]];
  }

  /** One call of the scheduler. */
  lemma ScriptedCall(s: Sched.Schedule, start: int, f: BlockTimer.Flags, env: seq<Event>, used: nat,
                     script: seq<BlockTimer.Event>, now: BlockTimer.Flags, e: BlockTimer.Event)
    requires Sched.Valid(s) && used <= |env| && Scripted(s, start, f, env, used, script, now)
    requires e == BlockTimer.Pause(Schedule) || e == BlockTimer.Resume(Schedule)
    ensures Scripted(s, start, f, env, used, script + [e], BlockTimer.FlagStep(now, e))
  {
    hide Sched.Active;
    ScriptAppend(f, script, e);
  }

  function GateFlags(g: State): BlockTimer.Flags {
    BlockTimer.Flags(g.op, g.sched)
  }

  ghost predicate InStep(g: Gate, clk: BlockTimer.Clock, start: int, op: bool, env: seq<Event>, used: nat)
    requires used <= |env|
    reads g, g.paused, g.closeNotify, clk
  {
    && g.Valid()
    && g.View().op == OperatorPaused(op, env[..used])
    && clk.now == start + Ticks(env[..used])
  }

  method Observe(g: Gate, at: int) returns (o: Observation)
    requires g.Valid()
    ensures o == Observation(at, g.View().Open(), g.View().op, g.View().sched)
  {
    var open := g.IsOpen();
    o := Observation(at, open, g.paused[0], g.paused[1]);
  }

  lemma TraceGrows(s: Sched.Schedule, start: int, op: bool, env: seq<Event>, used: nat,
                   trace: seq<Observation>, o: Observation)
    requires Sched.Valid(s) && used < |env|
    requires Faithful(s, start, op, env, used, trace)
    requires env[used].Tick? ==> o.at == start + |trace| && Agrees(s, o) && o.op == OperatorPaused(op, env[..used])
    ensures Faithful(s, start, op, env, used + 1, if env[used].Tick? then trace + [o] else trace)
  {
    OneMore(op, env, used);
  }

  lemma ObservationAgrees(s: Sched.Schedule, start: int, op: bool, env: seq<Event>, used: nat,
                          trace: seq<Observation>, o: Observation)
    requires Sched.Valid(s) && used <= |env| && Faithful(s, start, op, env, used, trace)
    requires o.at == start + Ticks(env[..used])
    requires o.sched <==> !Sched.Active(s, o.at)
    requires o.open <==> !o.op && !o.sched
    ensures Agrees(s, o) && o.at == start + |trace|
  {
  }

  /** The environment's next event. */
  method Happen(s: Sched.Schedule, g: Gate, clk: BlockTimer.Clock, env: seq<Event>, used: nat,
                trace0: seq<Observation>, script0: seq<BlockTimer.Event>, ghost start: int, ghost f: BlockTimer.Flags)
    returns (trace: seq<Observation>, script: seq<BlockTimer.Event>)
    requires Sched.Valid(s) && used < |env| && InStep(g, clk, start, f.op, env, used)
    requires Faithful(s, start, f.op, env, used, trace0)
    requires Scripted(s, start, f, env, used, script0, GateFlags(g.View()))
    requires g.View().sched <==> !Sched.Active(s, clk.now)
    modifies g, g.paused, g.closeNotify, clk
    ensures InStep(g, clk, start, f.op, env, used + 1)
    ensures g.closeNotify == old(g.closeNotify) || fresh(g.closeNotify)
    ensures Faithful(s, start, f.op, env, used + 1, trace)
    ensures Scripted(s, start, f, env, used + 1, script, GateFlags(g.View()))
    ensures g.View().sched == old(g.View().sched)
    ensures clk.now == old(clk.now) + if env[used].Tick? then 1 else 0
  {
    hide Ticks, OperatorPaused, Faithful, Scripted, Sched.Active;
    OneMore(f.op, env, used);
    var o := Observe(g, clk.now);
    ObservationAgrees(s, start, f.op, env, used, trace0, o);
    TraceGrows(s, start, f.op, env, used, trace0, o);
    ScriptedEvent(s, start, f, env, used, script0, GateFlags(g.View()));
    trace, script := trace0, script0 + [Inside(env[used])];
    match env[used] {
      case Tick =>
        clk.now := clk.now + 1;
        trace := trace + [o];
      case OperatorPause => g.Pause(Operator, clk.now);
      case OperatorResume => g.Resume(Operator, clk.now);
      case Cancel =>
    }
  }

  /** Lets the environment run until `deadline`, the script's end or a cancellation
      (`None` is no deadline), while the schedule state cannot change. */
  method Sleep(s: Sched.Schedule, g: Gate, clk: BlockTimer.Clock, deadline: Option<int>,
               env: seq<Event>, from: nat, trace0: seq<Observation>, script0: seq<BlockTimer.Event>,
               ghost start: int, ghost f: BlockTimer.Flags)
    returns (used: nat, end: End, trace: seq<Observation>, script: seq<BlockTimer.Event>)
    requires Sched.Valid(s) && from <= |env| && InStep(g, clk, start, f.op, env, from)
    requires Faithful(s, start, f.op, env, from, trace0)
    requires Scripted(s, start, f, env, from, script0, GateFlags(g.View()))
    requires g.View().sched <==> !Sched.Active(s, clk.now)
    requires Sched.IsNextFlip(s, clk.now, deadline)
    modifies g, g.paused, g.closeNotify, clk
    ensures from <= used <= |env| && InStep(g, clk, start, f.op, env, used)
    ensures g.closeNotify == old(g.closeNotify) || fresh(g.closeNotify)
    ensures Faithful(s, start, f.op, env, used, trace)
    ensures Scripted(s, start, f, env, used, script, GateFlags(g.View()))
    ensures end == Slept ==> deadline.Some? && clk.now == deadline.value && from < used
    ensures end == Slept || end == ScriptOver ==> forall k | from <= k < used :: !env[k].Cancel?
    ensures end == Cancelled ==> used > 0 && env[used - 1] == Cancel
    ensures end == ScriptOver ==> used == |env|
  {
    hide Ticks, OperatorPaused, Faithful, Scripted, Sched.Active, GateFlags;
    ghost var t0 := clk.now;
    used, trace, script := from, trace0, script0;
    while deadline.None? || clk.now < deadline.value
      invariant from <= used <= |env| && InStep(g, clk, start, f.op, env, used)
      invariant g.closeNotify == old(g.closeNotify) || fresh(g.closeNotify)
      invariant Faithful(s, start, f.op, env, used, trace)
      invariant Scripted(s, start, f, env, used, script, GateFlags(g.View()))
      invariant forall k | from <= k < used :: !env[k].Cancel?
      invariant g.View().sched <==> !Sched.Active(s, t0)
      invariant t0 <= clk.now && (deadline.Some? ==> clk.now <= deadline.value)
      invariant used == from ==> clk.now == t0
      decreases |env| - used
    {
      if used == |env| {
        return used, ScriptOver, trace, script;
      }
      assert Sched.Active(s, clk.now) == Sched.Active(s, t0);
      trace, script := Happen(s, g, clk, env, used, trace, script, start, f);
      used := used + 1;
      if env[used - 1].Cancel? {
        return used, Cancelled, trace, script;
      }
    }
    end := Slept;
  }

  /** The call an iteration makes: the schedule source follows the schedule. */
  method Follow(s: Sched.Schedule, g: Gate, clk: BlockTimer.Clock, env: seq<Event>, used: nat,
                script0: seq<BlockTimer.Event>, ghost start: int, ghost f: BlockTimer.Flags)
    returns (script: seq<BlockTimer.Event>)
    requires Sched.Valid(s) && used <= |env| && InStep(g, clk, start, f.op, env, used)
    requires Scripted(s, start, f, env, used, script0, GateFlags(g.View()))
    modifies g, g.paused, g.closeNotify
    ensures InStep(g, clk, start, f.op, env, used)
    ensures g.closeNotify == old(g.closeNotify) || fresh(g.closeNotify)
    ensures Scripted(s, start, f, env, used, script, GateFlags(g.View()))
    ensures g.View().sched <==> !Sched.Active(s, clk.now)
  {
    hide Ticks, OperatorPaused, Scripted, Sched.Active;
    var now := clk.now;
    var active := Sched.IsActive(s, now);
    ghost var call := if active then BlockTimer.Resume(Schedule) else BlockTimer.Pause(Schedule);
    ScriptedCall(s, start, f, env, used, script0, GateFlags(g.View()), call);
    if active {
      g.Resume(Schedule, now);
      script := script0 + [BlockTimer.Resume(Schedule)];
    } else {
      g.Pause(Schedule, now);
      script := script0 + [BlockTimer.Pause(Schedule)];
    }
  }

  lemma ScriptedMeans(s: Sched.Schedule, start: int, f: BlockTimer.Flags, env: seq<Event>, used: nat,
                      script: seq<BlockTimer.Event>, now: BlockTimer.Flags)
    requires Sched.Valid(s) && used <= |env| && Scripted(s, start, f, env, used, script, now)
    ensures InTune(s, start, f, script) && Outside(script) == env[..used]
  {
  }

  /** From its first iteration on, for as long as the script goes on and also after it has
      returned because nothing will ever change again, the schedule source is paused exactly
      while the schedule is inactive, and the gate is open exactly when the schedule is
      active and the operator has not paused. Only a cancellation ends this. */
  method RunScheduler(s: Sched.Schedule, g: Gate, clk: BlockTimer.Clock, env: seq<Event>)
    returns (used: nat, end: End, trace: seq<Observation>, script: seq<BlockTimer.Event>)
    requires Sched.Valid(s) && g.Valid()
    modifies g, g.paused, g.closeNotify, clk
    ensures used <= |env| && Faithful(s, old(clk.now), old(g.View().op), env, used, trace)
    ensures InTune(s, old(clk.now), old(GateFlags(g.View())), script) && Outside(script) == env[..used]
    ensures end == ScriptOver ==> used == |env| && forall k | 0 <= k < used :: !env[k].Cancel?
    ensures end == Cancelled ==> used > 0 && env[used - 1] == Cancel
    ensures end != Slept
  {
    ghost var start, f := clk.now, GateFlags(g.View());
    StartOfScript(f.op, env);
    used, trace, script := 0, [], [];
    assert Faithful(s, start, f.op, env, 0, trace);
    assert Scripted(s, start, f, env, 0, script, f);
    hide Ticks, OperatorPaused, Faithful, Scripted, Sched.Active, Sched.IsNextFlip;
    while true
      invariant used <= |env| && InStep(g, clk, start, f.op, env, used)
      invariant g.closeNotify == old(g.closeNotify) || fresh(g.closeNotify)
      invariant Faithful(s, start, f.op, env, used, trace)
      invariant Scripted(s, start, f, env, used, script, GateFlags(g.View()))
      invariant forall k | 0 <= k < used :: !env[k].Cancel?
      decreases |env| - used
    {
      var now := clk.now;
      script := Follow(s, g, clk, env, used, script, start, f);
      var next := Sched.NextTransition(s, now);
      used, end, trace, script := Sleep(s, g, clk, next, env, used, trace, script, start, f);
      if end != Slept {
        ScriptedMeans(s, start, f, env, used, script, GateFlags(g.View()));
        return;
      }
    }
  }
}
