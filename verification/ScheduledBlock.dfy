/** Scheduler and block timer on one gate: when a block of a scheduled run finishes. */
module ScheduledBlock {
  import opened PauseGate
  import opened Scheduler
  import BlockTimer
  import Sched = Schedule

  /** Nanoseconds during which the schedule is active and the operator has not paused. */
  function ActiveTime(s: Sched.Schedule, start: int, op: bool, env: seq<Scheduler.Event>): nat
    requires Sched.Valid(s)
  {
    if env == [] then 0
    else
      var front := env[..|env| - 1];
      ActiveTime(s, start, op, front) +
      if env[|env| - 1].Tick? && Sched.Active(s, start + Ticks(front)) && !OperatorPaused(op, front) then 1 else 0
  }

  lemma {:induction false} ActiveTimeGrows(s: Sched.Schedule, start: int, op: bool, env: seq<Scheduler.Event>,
                                           m: nat, n: nat)
    requires Sched.Valid(s) && m <= n <= |env|
    ensures ActiveTime(s, start, op, env[..m]) <= ActiveTime(s, start, op, env[..n])
  {
    if m < n {
      hide Sched.Active;
      ActiveTimeGrows(s, start, op, env, m, n - 1);
      assert env[..n][..n - 1] == env[..n - 1];
    }
  }

  lemma OneMoreOutside(s: Sched.Schedule, start: int, op: bool, env: seq<Scheduler.Event>, e: Scheduler.Event)
    requires Sched.Valid(s)
    ensures Ticks(env + [e]) == Ticks(env) + if e.Tick? then 1 else 0
    ensures OperatorPaused(op, env + [e]) ==
              if e.OperatorPause? then true else if e.OperatorResume? then false else OperatorPaused(op, env)
    ensures ActiveTime(s, start, op, env + [e]) == ActiveTime(s, start, op, env) +
              if e.Tick? && Sched.Active(s, start + Ticks(env)) && !OperatorPaused(op, env) then 1 else 0
  {
    hide Sched.Active;
    assert (env + [e])[..|env|] == env;
  }

  lemma OneMoreInside(f: BlockTimer.Flags, script: seq<BlockTimer.Event>, e: BlockTimer.Event)
    ensures var flags := BlockTimer.FlagsAfter(f, script);
            BlockTimer.OpenTime(f, script + [e])
            == BlockTimer.OpenTime(f, script) + if e.Tick? && !flags.op && !flags.sched then e.dt else 0
    ensures Outside(script + [e]) == Outside(script) + OutsideOf(e)
  {
    assert (script + [e])[..|script|] == script;
  }

  lemma InTuneLast(s: Sched.Schedule, start: int, f: BlockTimer.Flags, script: seq<BlockTimer.Event>)
    requires Sched.Valid(s) && InTune(s, start, f, script) && script != []
    ensures var front, e := script[..|script| - 1], script[|script| - 1];
            && InTune(s, start, f, front) && script == front + [e]
            && (e.Tick? ==> e.dt == 1
                            && (BlockTimer.FlagsAfter(f, front).sched
                                <==> !Sched.Active(s, start + BlockTimer.Elapsed(front))))
  {
  }

  /** Gate and environment tell the same story of a script. */
  ghost predicate Matches(s: Sched.Schedule, start: int, f: BlockTimer.Flags, script: seq<BlockTimer.Event>)
    requires Sched.Valid(s)
  {
    && BlockTimer.FlagsAfter(f, script).op == OperatorPaused(f.op, Outside(script))
    && BlockTimer.Elapsed(script) == Ticks(Outside(script))
    && BlockTimer.OpenTime(f, script) == ActiveTime(s, start, f.op, Outside(script))
  }

  lemma OneMoreMatches(s: Sched.Schedule, start: int, f: BlockTimer.Flags, script: seq<BlockTimer.Event>,
                       e: BlockTimer.Event)
    requires Sched.Valid(s) && Matches(s, start, f, script)
    requires e.Tick? ==> e.dt == 1
    requires e.Tick? ==>
               (BlockTimer.FlagsAfter(f, script).sched <==> !Sched.Active(s, start + BlockTimer.Elapsed(script)))
    ensures Matches(s, start, f, script + [e])
  {
    hide Sched.Active, ActiveTime, Ticks, OperatorPaused, Outside, OutsideOf, BlockTimer.OpenTime, BlockTimer.Elapsed,
      BlockTimer.FlagsAfter, BlockTimer.FlagStep, Sched.Valid;
    var before := Outside(script);
    ScriptAppend(f, script, e);
    OneMoreInside(f, script, e);
    Counterpart(BlockTimer.FlagsAfter(f, script), e);
    if OutsideOf(e) == [] {
      assert before + [] == before;
    } else {
      OneMoreOutside(s, start, f.op, before, OutsideOf(e)[0]);
    }
  }

  /** On a gate in tune with the schedule, open time is active time, whoever made which call. */
  lemma {:induction false} OpenIsActive(s: Sched.Schedule, start: int, f: BlockTimer.Flags,
                                        script: seq<BlockTimer.Event>)
    requires Sched.Valid(s) && InTune(s, start, f, script)
    ensures Matches(s, start, f, script)
  {
    if script != [] {
      hide *;
      InTuneLast(s, start, f, script);
      OpenIsActive(s, start, f, script[..|script| - 1]);
      OneMoreMatches(s, start, f, script[..|script| - 1], script[|script| - 1]);
    }
  }

  lemma Counterpart(f: BlockTimer.Flags, e: BlockTimer.Event)
    ensures OutsideOf(e) == [] ==> !e.Tick? && BlockTimer.FlagStep(f, e).op == f.op
    ensures OutsideOf(e) != [] ==>
              var x := OutsideOf(e)[0];
              && OutsideOf(e) == [x] && (x.Tick? <==> e.Tick?)
              && BlockTimer.FlagStep(f, e).op
                 == (if x.OperatorPause? then true else if x.OperatorResume? then false else f.op)
  {
  }

  lemma {:induction false} TunePrefix(s: Sched.Schedule, start: int, f: BlockTimer.Flags,
                                      script: seq<BlockTimer.Event>, k: nat)
    requires Sched.Valid(s) && InTune(s, start, f, script) && k <= |script|
    ensures InTune(s, start, f, script[..k])
    decreases |script|
  {
    if k == |script| {
      assert script[..k] == script;
    } else {
      hide Sched.Active;
      TunePrefix(s, start, f, script[..|script| - 1], k);
      assert script[..|script| - 1][..k] == script[..k];
    }
  }

  lemma {:induction false} OutsidePrefix(script: seq<BlockTimer.Event>, k: nat)
    requires k <= |script|
    ensures Outside(script[..k]) <= Outside(script)
    ensures |Outside(script)| <= |Outside(script[..k])| + |script| - k
  {
    if k == |script| {
      assert script[..k] == script;
    } else {
      OutsidePrefix(script[..|script| - 1], k);
      assert script[..|script| - 1][..k] == script[..k];
    }
  }

  lemma {:induction false} CancelComesFromOutside(script: seq<BlockTimer.Event>)
    requires Scheduler.Event.Cancel in Outside(script)
    ensures exists k :: 0 <= k < |script| && script[k].Cancel?
  {
    var n := |script| - 1;
    if !script[n].Cancel? {
      CancelComesFromOutside(script[..n]);
      var k :| 0 <= k < n && script[..n][k].Cancel?;
      assert script[k].Cancel?;
    }
  }

  /** The script up to `k` in terms of the environment alone. */
  lemma AtScript(s: Sched.Schedule, start: int, f: BlockTimer.Flags, script: seq<BlockTimer.Event>,
                 env: seq<Scheduler.Event>, n: nat, k: nat)
    requires Sched.Valid(s) && InTune(s, start, f, script) && n <= |env| && Outside(script) == env[..n] && k <= |script|
    ensures var at := |Outside(script[..k])|;
            && at <= n && env[..at] == Outside(script[..k])
            && BlockTimer.OpenTime(f, script[..k]) == ActiveTime(s, start, f.op, env[..at])
  {
    TunePrefix(s, start, f, script, k);
    OpenIsActive(s, start, f, script[..k]);
    OutsidePrefix(script, k);
    assert env[..n][..|Outside(script[..k])|] == env[..|Outside(script[..k])|];
  }

  lemma LastIsCancel(script: seq<BlockTimer.Event>, k: nat)
    requires 0 < k <= |script| && script[k - 1] == BlockTimer.Cancel
    ensures var o := Outside(script[..k]); o != [] && o[|o| - 1] == Scheduler.Event.Cancel
  {
    assert script[..k][..k - 1] == script[..k - 1];
  }

  lemma OneStepBack(script: seq<BlockTimer.Event>, k: nat)
    requires 0 < k <= |script|
    ensures |Outside(script[..k])| <= |Outside(script[..k - 1])| + 1
  {
    assert script[..k][..k - 1] == script[..k - 1];
  }

  /** Both goroutines of a scheduled block: the scheduler's calls and the environment's make up
      one script of gate events, and the block timer lives through it. The block finishes at
      the first moment at which the schedule has been active, with the operator not pausing,
      for the block's duration in all; `at` counts the environment's events until then. */
  method RunScheduledBlock(s: Sched.Schedule, start: int, duration: int, env: seq<Scheduler.Event>, slip: nat -> nat)
    returns (at: nat, end: BlockTimer.Outcome)
    requires Sched.Valid(s)
    ensures at <= |env|
    ensures forall k | 0 <= k < at :: ActiveTime(s, start, false, env[..k]) < duration
    ensures end.Finished? ==> duration <= ActiveTime(s, start, false, env[..at])
    ensures end.Cancelled? ==> at > 0 && env[at - 1].Cancel? && ActiveTime(s, start, false, env[..at]) < duration
    ensures end.Waiting? ==> at == |env| && ActiveTime(s, start, false, env) < duration
  {
    hide Sched.Active, ActiveTime, InTune, BlockTimer.OpenTime, Outside;
    var g := new Gate();
    var clk := new BlockTimer.Clock(start);
    var n, stop, trace, script := RunScheduler(s, g, clk, env);
    var gate := new Gate();
    var clock := new BlockTimer.Clock(start);
    ghost var f := BlockTimer.Flags(false, false);
    var used: nat;
    used, end := BlockTimer.RunBlockDuration(gate, clock, duration, script, slip);
    var seen := Outside(script[..used]);
    at := |seen|;
    AtScript(s, start, f, script, env, n, used);
    if used > 0 {
      AtScript(s, start, f, script, env, n, used - 1);
      OneStepBack(script, used);
      Sooner(s, start, env, |Outside(script[..used - 1])|, duration);
    } else {
      NothingYet(script);
    }
    if end.Cancelled? {
      LastIsCancel(script, used);
    }
    if end.Waiting? {
      assert script[..|script|] == script;
      if stop.Cancelled? {
        assert env[..n][n - 1] == Scheduler.Event.Cancel;
        CancelComesFromOutside(script);
      }
      assert env[..|env|] == env;
    }
  }

  lemma NothingYet(script: seq<BlockTimer.Event>)
    ensures Outside(script[..0]) == []
  {
  }

  lemma Sooner(s: Sched.Schedule, start: int, env: seq<Scheduler.Event>, m: nat, duration: int)
    requires Sched.Valid(s) && m <= |env| && ActiveTime(s, start, false, env[..m]) < duration
    ensures forall k | 0 <= k <= m :: ActiveTime(s, start, false, env[..k]) < duration
  {
    forall k | 0 <= k <= m
      ensures ActiveTime(s, start, false, env[..k]) < duration
    {
      ActiveTimeGrows(s, start, false, env, k, m);
    }
  }
}
