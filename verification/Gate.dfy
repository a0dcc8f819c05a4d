/** The dual-source pause gate and its operator-pause accounting. */
module PauseGate {

  datatype Source = Operator | Schedule

  /** The zero `time.Time`, used as "not paused". */
  const ZERO_TIME: int := 0

  /** The gate without its heap: which sources are paused, the close channel's state, how
      many channels were made so far, and the pause accounts. */
  datatype State = State(op: bool, sched: bool, closed: bool, made: nat, pausedAt: int, pausedTotal: int) {
    predicate Open() {
      !op && !sched
    }

    predicate Paused(src: Source) {
      if src.Operator? then op else sched
    }
  }

  const NEW_GATE := State(false, false, false, 1, ZERO_TIME, 0)

  function PauseStep(g: State, src: Source, now: int): State {
    if g.Paused(src) then g
    else
      var h := if src.Operator? then g.(op := true, pausedAt := now) else g.(sched := true);
      if g.Open() then h.(closed := true) else h
  }

  function ResumeStep(g: State, src: Source, now: int): State {
    if !g.Paused(src) then g
    else
      var h := match src
        case Schedule => g.(sched := false)
        case Operator =>
          if g.pausedAt == ZERO_TIME then g.(op := false)
          else g.(op := false, pausedTotal := g.pausedTotal + (now - g.pausedAt), pausedAt := ZERO_TIME);
      if h.Open() then h.(closed := false, made := h.made + 1) else h
  }

  function PausedTotalAt(g: State, now: int): int {
    g.pausedTotal + (if g.pausedAt == ZERO_TIME then 0 else now - g.pausedAt)
  }

  // ---------- runs of timed calls ----------

  datatype Call = Pause(src: Source, at: int) | Resume(src: Source, at: int)

  function Step(g: State, c: Call): State {
    match c
    case Pause(src, at) => PauseStep(g, src, at)
    case Resume(src, at) => ResumeStep(g, src, at)
  }

  function Run(calls: seq<Call>): State {
    if calls == [] then NEW_GATE else Step(Run(calls[..|calls| - 1]), calls[|calls| - 1])
  }

  /** A source is paused when the latest call about it is a pause. */
  predicate LastIsPause(calls: seq<Call>, src: Source) {
    calls != [] &&
    if calls[|calls| - 1].src == src then calls[|calls| - 1].Pause?
    else LastIsPause(calls[..|calls| - 1], src)
  }

  /** How often the gate went from open to closed. */
  function Closings(calls: seq<Call>): nat {
    if calls == [] then 0
    else
      var before := calls[..|calls| - 1];
      var wasOpen := !LastIsPause(before, Operator) && !LastIsPause(before, Schedule);
      var isOpen := !LastIsPause(calls, Operator) && !LastIsPause(calls, Schedule);
      Closings(before) + if wasOpen && !isOpen then 1 else 0
  }

  /** The gate is open exactly when no source's latest call was a pause; its current
      channel is closed exactly when it is not open; and every closing used up one
      channel: as many channels have been closed as the gate has gone from open to closed,
      so none was closed twice. */
  lemma {:induction false} GateFollowsCalls(calls: seq<Call>)
    ensures var g := Run(calls);
      && (g.op <==> LastIsPause(calls, Operator))
      && (g.sched <==> LastIsPause(calls, Schedule))
      && (g.closed <==> !g.Open())
      && g.made - 1 + (if g.closed then 1 else 0) == Closings(calls)
  {
    if calls != [] {
      GateFollowsCalls(calls[..|calls| - 1]);
    }
  }

  /** Calls at non-decreasing, non-zero clock readings, none after `now`. */
  predicate Timed(calls: seq<Call>, now: int) {
    calls != [] ==>
      var last := calls[|calls| - 1];
      last.at <= now && last.at != ZERO_TIME && Timed(calls[..|calls| - 1], last.at)
  }

  /** The time up to `now` during which the operator source was paused. */
  function OperatorPausedTime(calls: seq<Call>, now: int): int {
    if calls == [] then 0
    else
      var at := calls[|calls| - 1].at;
      OperatorPausedTime(calls[..|calls| - 1], at) + if LastIsPause(calls, Operator) then now - at else 0
  }

  /** The pause account is exactly the operator-paused time; schedule pauses and repeated
      calls add nothing. */
  lemma {:induction false} PausedTotalExact(calls: seq<Call>, now: int)
    requires Timed(calls, now)
    ensures PausedTotalAt(Run(calls), now) == OperatorPausedTime(calls, now)
    ensures Run(calls).pausedAt != ZERO_TIME <==> Run(calls).op
  {
    if calls != [] {
      var before, c := calls[..|calls| - 1], calls[|calls| - 1];
      PausedTotalExact(before, c.at);
      GateFollowsCalls(before);
      GateFollowsCalls(calls);
    }
  }

  // ---------- the code ----------

  /** A notification channel: closing it twice would panic. */
  class Notify {
    var closed: bool

    constructor ()
      ensures !closed
    {
      closed := false;
    }

    method Close()
      requires !closed
      modifies this
      ensures closed
    {
      closed := true;
    }
  }

  function Index(src: Source): nat {
    if src.Operator? then 0 else 1
  }

  class Gate {
    const paused: array<bool>
    var closeNotify: Notify
    var opPausedAt: int
    var opPausedTotal: int
    ghost var made: nat

    ghost function Repr(): set<object>
      reads this
    {
      {this, paused, closeNotify}
    }

    ghost function View(): State
      requires paused.Length == 2
      reads this, paused, closeNotify
    {
      State(paused[0], paused[1], closeNotify.closed, made, opPausedAt, opPausedTotal)
    }

    /** The close channel is closed exactly while some source is paused. */
    ghost predicate Valid()
      reads this, paused, closeNotify
    {
      paused.Length == 2 && (closeNotify.closed <==> !View().Open())
    }

    constructor ()
      ensures Valid() && View() == NEW_GATE && fresh(Repr())
    {
      paused := new bool[2](_ => false);
      closeNotify := new Notify();
      opPausedAt, opPausedTotal, made := ZERO_TIME, 0, 1;
    }

    method IsOpen() returns (open: bool)
      requires paused.Length == 2
      ensures open <==> View().Open()
    {
      for i := 0 to paused.Length
        invariant forall j | 0 <= j < i :: !paused[j]
      {
        if paused[i] {
          return false;
        }
      }
      return true;
    }

    method Pause(src: Source, now: int)
      requires Valid()
      modifies this, paused, closeNotify
      ensures Valid() && View() == PauseStep(old(View()), src, now)
      ensures closeNotify == old(closeNotify)
    {
      if paused[Index(src)] {
        return;
      }
      var wasOpen := IsOpen();
      paused[Index(src)] := true;
      if src == Operator {
        opPausedAt := now;
      }
      var open := IsOpen();
      if wasOpen && !open {
        closeNotify.Close();
      }
    }

    method Resume(src: Source, now: int)
      requires Valid()
      modifies this, paused
      ensures Valid() && View() == ResumeStep(old(View()), src, now)
      ensures closeNotify == old(closeNotify) || fresh(closeNotify)
      ensures View().made == old(View()).made ==> closeNotify == old(closeNotify)
    {
      if !paused[Index(src)] {
        return;
      }
      paused[Index(src)] := false;
      if src == Operator && opPausedAt != ZERO_TIME {
        opPausedTotal := opPausedTotal + (now - opPausedAt);
        opPausedAt := ZERO_TIME;
      }
      var open := IsOpen();
      if open {
        closeNotify := new Notify();
        made := made + 1;
      }
    }

    method PausedTotal(now: int) returns (total: int)
      requires Valid()
      ensures total == PausedTotalAt(View(), now)
    {
      total := opPausedTotal;
      if opPausedAt != ZERO_TIME {
        total := total + (now - opPausedAt);
      }
    }
  }
}
