/** The gate-aware block timer: a goroutine that counts open-gate time towards a block's
    duration. The environment is a script of what happens while the goroutine waits; each
    wait ends as soon as its condition holds, that is, before the clock moves again. */
module BlockTimer {
  import opened PauseGate

  datatype Event = Tick(dt: nat) | Pause(src: Source) | Resume(src: Source) | Cancel

  datatype Outcome = Finished | Cancelled | Waiting

  class Clock {
    var now: int

    constructor (now: int)
      ensures this.now == now
    {
      this.now := now;
    }
  }

  // ---------- the reference: open time read off the script ----------

  datatype Flags = Flags(op: bool, sched: bool)

  function FlagStep(f: Flags, e: Event): Flags {
    match e
    case Pause(Operator) => f.(op := true)
    case Pause(Schedule) => f.(sched := true)
    case Resume(Operator) => f.(op := false)
    case Resume(Schedule) => f.(sched := false)
    case _ => f
  }

  function FlagsAfter(f: Flags, env: seq<Event>): Flags {
    if env == [] then f else FlagStep(FlagsAfter(f, env[..|env| - 1]), env[|env| - 1])
  }

  /** Total time the script spends with both sources open. */
  function OpenTime(f: Flags, env: seq<Event>): nat {
    if env == [] then 0
    else
      var before, e := env[..|env| - 1], env[|env| - 1];
      var g := FlagsAfter(f, before);
      OpenTime(f, before) + if e.Tick? && !g.op && !g.sched then e.dt else 0
  }

  function Elapsed(env: seq<Event>): nat {
    if env == [] then 0
    else Elapsed(env[..|env| - 1]) + if env[|env| - 1].Tick? then env[|env| - 1].dt else 0
  }

  lemma OneMore(f: Flags, env: seq<Event>, n: nat)
    requires n < |env|
    ensures FlagsAfter(f, env[..n + 1]) == FlagStep(FlagsAfter(f, env[..n]), env[n])
    ensures OpenTime(f, env[..n + 1]) == OpenTime(f, env[..n]) +
      if env[n].Tick? && !FlagsAfter(f, env[..n]).op && !FlagsAfter(f, env[..n]).sched then env[n].dt else 0
    ensures Elapsed(env[..n + 1]) == Elapsed(env[..n]) + if env[n].Tick? then env[n].dt else 0
  {
    assert env[..n + 1][..n] == env[..n] && env[..n + 1][n] == env[n];
  }

  lemma StartOfScript(f: Flags, env: seq<Event>)
    ensures FlagsAfter(f, env[..0]) == f && OpenTime(f, env[..0]) == 0 && Elapsed(env[..0]) == 0
  {
    assert env[..0] == [];
  }

  /** Open time never runs backwards, so "first reaches" is well defined. */
  lemma {:induction false} OpenTimeGrows(f: Flags, env: seq<Event>, m: nat, n: nat)
    requires m <= n <= |env|
    ensures OpenTime(f, env[..m]) <= OpenTime(f, env[..n])
  {
    if m < n {
      OpenTimeGrows(f, env, m, n - 1);
      OneMore(f, env, n - 1);
    }
  }

  /** Gate and clock are where the first `used` events of the script put them. */
  ghost predicate InStep(g: Gate, clk: Clock, start: int, f: Flags, env: seq<Event>, used: nat)
    requires used <= |env|
    reads g, g.paused, g.closeNotify, clk
  {
    && g.Valid()
    && Flags(g.View().op, g.View().sched) == FlagsAfter(f, env[..used])
    && clk.now == start + Elapsed(env[..used])
  }

  method Apply(g: Gate, clk: Clock, e: Event)
    requires g.Valid()
    modifies g, g.paused, g.closeNotify, clk
    ensures g.Valid()
    ensures Flags(g.View().op, g.View().sched) == FlagStep(old(Flags(g.View().op, g.View().sched)), e)
    ensures clk.now == old(clk.now) + if e.Tick? then e.dt else 0
    ensures g.closeNotify == old(g.closeNotify) || fresh(g.closeNotify)
    ensures old(g.View().Open()) ==> g.closeNotify == old(g.closeNotify)
    ensures old(g.closeNotify.closed) ==> old(g.closeNotify).closed
  {
    match e
    case Tick(dt) => clk.now := clk.now + dt;
    case Pause(src) => g.Pause(src, clk.now);
    case Resume(src) => g.Resume(src, clk.now);
    case Cancel =>
  }

  /** Blocks until the gate is open and hands out the channel that will report its closing;
      `None` when the context is cancelled or the script ends first. */
  method WaitOpen(g: Gate, clk: Clock, env: seq<Event>, from: nat, ghost start: int, ghost f: Flags)
    returns (used: nat, end: Outcome, ch: Notify?)
    requires from <= |env| && InStep(g, clk, start, f, env, from)
    modifies g, g.paused, g.closeNotify, clk
    ensures from <= used <= |env| && InStep(g, clk, start, f, env, used)
    ensures g.closeNotify == old(g.closeNotify) || fresh(g.closeNotify)
    ensures OpenTime(f, env[..used]) == OpenTime(f, env[..from])
    ensures forall k | from <= k < used :: env[k].Cancel? ==> end == Cancelled
    ensures end == Cancelled ==> used > 0 && env[used - 1] == Cancel
    ensures end == Waiting ==> used == |env|
    ensures end == Finished <==> ch != null
    ensures ch != null ==> g.View().Open() && ch == g.closeNotify && (forall k | from <= k < used :: !env[k].Cancel?)
  {
    hide FlagsAfter, OpenTime, Elapsed;
    used, ch := from, null;
    while true
      invariant from <= used <= |env| && InStep(g, clk, start, f, env, used)
      invariant g.closeNotify == old(g.closeNotify) || fresh(g.closeNotify)
      invariant OpenTime(f, env[..used]) == OpenTime(f, env[..from])
      invariant forall k | from <= k < used :: !env[k].Cancel?
      decreases |env| - used
    {
      var open := g.IsOpen();
      if open {
        return used, Finished, g.closeNotify;
      }
      if used == |env| {
        return used, Waiting, null;
      }
      OneMore(f, env, used);
      Apply(g, clk, env[used]);
      used := used + 1;
      if env[used - 1].Cancel? {
        return used, Cancelled, null;
      }
    }
  }

  /** What happens between taking the channel and waiting on it: nothing that takes time. */
  method Slip(g: Gate, clk: Clock, ch: Notify, env: seq<Event>, from: nat, most: nat, ghost start: int, ghost f: Flags)
    returns (used: nat, cancelled: bool)
    requires from <= |env| && InStep(g, clk, start, f, env, from)
    requires g.View().Open() && ch == g.closeNotify
    modifies g, g.paused, g.closeNotify, clk
    ensures from <= used <= |env| && InStep(g, clk, start, f, env, used)
    ensures g.closeNotify == old(g.closeNotify) || fresh(g.closeNotify)
    ensures clk.now == old(clk.now) && OpenTime(f, env[..used]) == OpenTime(f, env[..from])
    ensures forall k | from <= k < used :: env[k].Cancel? ==> cancelled
    ensures cancelled ==> used > 0 && env[used - 1] == Cancel
    ensures ch.closed ==> used > from
    ensures ch.closed || (g.View().Open() && ch == g.closeNotify)
  {
    hide FlagsAfter, OpenTime, Elapsed;
    used, cancelled := from, false;
    while used < |env| && used - from < most && !env[used].Tick?
      invariant from <= used <= |env| && InStep(g, clk, start, f, env, used)
      invariant g.closeNotify == old(g.closeNotify) || fresh(g.closeNotify)
      invariant clk.now == old(clk.now) && OpenTime(f, env[..used]) == OpenTime(f, env[..from])
      invariant forall k | from <= k < used :: !env[k].Cancel?
      invariant ch.closed ==> used > from
      invariant ch.closed || (g.View().Open() && ch == g.closeNotify)
    {
      OneMore(f, env, used);
      Apply(g, clk, env[used]);
      used := used + 1;
      if env[used - 1].Cancel? {
        return used, true;
      }
    }
  }

  /** The select on timer, gate close and cancellation. The channel may be closed already. */
  method Select(g: Gate, clk: Clock, ch: Notify, deadline: int, env: seq<Event>, from: nat,
                ghost start: int, ghost f: Flags, ghost need: int)
    returns (used: nat, end: Outcome)
    requires from <= |env| && InStep(g, clk, start, f, env, from)
    requires ch.closed || (g.View().Open() && ch == g.closeNotify)
    requires clk.now < deadline
    requires need == OpenTime(f, env[..from]) + (deadline - clk.now)
    modifies g, g.paused, g.closeNotify, clk
    ensures from <= used <= |env| && InStep(g, clk, start, f, env, used)
    ensures g.closeNotify == old(g.closeNotify) || fresh(g.closeNotify)
    ensures forall k | from <= k < used :: env[k].Cancel? ==> end == Cancelled
    ensures forall k | from <= k < used :: OpenTime(f, env[..k]) < need
    ensures OpenTime(f, env[..used]) == OpenTime(f, env[..from]) + (clk.now - old(clk.now))
    ensures end == Cancelled ==> used > 0 && env[used - 1] == Cancel && OpenTime(f, env[..used]) < need
    ensures end == Waiting ==> used == |env| && OpenTime(f, env[..used]) < need
    ensures end == Finished ==> used > from || old(ch.closed)
    ensures end == Finished ==> if ch.closed then OpenTime(f, env[..used]) < need else need <= OpenTime(f, env[..used])
  {
    hide FlagsAfter, OpenTime, Elapsed;
    used := from;
    while !ch.closed && clk.now < deadline
      invariant from <= used <= |env| && InStep(g, clk, start, f, env, used)
      invariant old(ch.closed) ==> used == from && ch.closed
      invariant g.closeNotify == old(g.closeNotify) && (old(ch.closed) || ch == g.closeNotify)
      invariant OpenTime(f, env[..used]) == OpenTime(f, env[..from]) + (clk.now - old(clk.now))
      invariant forall k | from <= k < used :: OpenTime(f, env[..k]) < need && !env[k].Cancel?
      invariant ch.closed ==> clk.now < deadline
      invariant used == from && !old(ch.closed) ==> !ch.closed && clk.now < deadline
      decreases |env| - used
    {
      if used == |env| {
        return used, Waiting;
      }
      OneMore(f, env, used);
      Apply(g, clk, env[used]);
      used := used + 1;
      if env[used - 1].Cancel? {
        return used, Cancelled;
      }
    }
    end := Finished;
  }

  /** One turn of the loop: wait for the gate, then for its closing or the rest of the duration.
      `most` bounds the events between taking the channel and waiting on it. */
  method Segment(g: Gate, clk: Clock, duration: int, elapsed: int, env: seq<Event>, from: nat, most: nat,
                 ghost start: int, ghost f: Flags)
    returns (used: nat, end: Outcome, total: int)
    requires from <= |env| && InStep(g, clk, start, f, env, from)
    requires elapsed == OpenTime(f, env[..from]) < duration
    modifies g, g.paused, g.closeNotify, clk
    ensures from <= used <= |env| && InStep(g, clk, start, f, env, used)
    ensures g.closeNotify == old(g.closeNotify) || fresh(g.closeNotify)
    ensures forall k | from <= k < used :: OpenTime(f, env[..k]) < duration
    ensures forall k | from <= k < used :: env[k].Cancel? ==> end == Cancelled
    ensures end == Cancelled ==> used > 0 && env[used - 1] == Cancel && OpenTime(f, env[..used]) < duration
    ensures end == Waiting ==> used == |env| && OpenTime(f, env[..used]) < duration
    ensures end == Finished ==>
              used > from && if total < duration then total == OpenTime(f, env[..used])
                             else duration <= OpenTime(f, env[..used])
  {
    hide FlagsAfter, OpenTime, Elapsed;
    total := elapsed;
    var ch: Notify?;
    used, end, ch := WaitOpen(g, clk, env, from, start, f);
    Unchanged(f, env, from, used);
    if ch == null {
      return;
    }
    ghost var taken := used;
    var cancelled: bool;
    used, cancelled := Slip(g, clk, ch, env, used, most, start, f);
    Unchanged(f, env, taken, used);
    if cancelled {
      end := Cancelled;
      return;
    }
    var segStart := clk.now;
    var remaining := duration - elapsed;
    used, end := Select(g, clk, ch, segStart + remaining, env, used, start, f, duration);
    if end == Finished {
      total := if ch.closed then elapsed + (clk.now - segStart) else duration;
    }
  }

  lemma Unchanged(f: Flags, env: seq<Event>, m: nat, n: nat)
    requires m <= n <= |env|
    ensures forall k | m <= k <= n :: OpenTime(f, env[..k]) <= OpenTime(f, env[..n])
  {
    forall k | m <= k <= n
      ensures OpenTime(f, env[..k]) <= OpenTime(f, env[..n])
    {
      OpenTimeGrows(f, env, k, n);
    }
  }

  /** The block finishes at the first moment the gate has been open for `duration` in all,
      whatever the two sources do; until then, and after a cancellation, it does not. `slip`
      says how many events may come between taking the channel and waiting on it. */
  method RunBlockDuration(g: Gate, clk: Clock, duration: int, env: seq<Event>, slip: nat -> nat)
    returns (used: nat, end: Outcome)
    requires g.Valid()
    modifies g, g.paused, g.closeNotify, clk
    ensures used <= |env|
    ensures var f := old(Flags(g.View().op, g.View().sched));
      && (forall k | 0 <= k < used :: OpenTime(f, env[..k]) < duration)
      && (forall k | 0 <= k < used :: env[k].Cancel? ==> end == Cancelled)
      && (end == Finished ==> duration <= OpenTime(f, env[..used]))
      && (end == Cancelled ==> used > 0 && env[used - 1] == Cancel && OpenTime(f, env[..used]) < duration)
      && (end == Waiting ==> used == |env| && OpenTime(f, env) < duration)
  {
    ghost var f := Flags(g.View().op, g.View().sched);
    ghost var start := clk.now;
    StartOfScript(f, env);
    hide FlagsAfter, OpenTime, Elapsed;
    var elapsed := 0;
    used := 0;
    assert env[..|env|] == env;
    while elapsed < duration
      invariant used <= |env| && InStep(g, clk, start, f, env, used)
      invariant g.closeNotify == old(g.closeNotify) || fresh(g.closeNotify)
      invariant forall k | 0 <= k < used :: OpenTime(f, env[..k]) < duration && !env[k].Cancel?
      invariant if elapsed < duration then elapsed == OpenTime(f, env[..used])
                else duration <= OpenTime(f, env[..used]) || duration <= 0
      decreases |env| - used
    {
      used, end, elapsed := Segment(g, clk, duration, elapsed, env, used, slip(used), start, f);
      if end != Finished {
        return;
      }
    }
    end := Finished;
  }
}
