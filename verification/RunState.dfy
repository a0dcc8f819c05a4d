/** The life of a run: the transition table, the audit trail, and Pause, Resume, Stop and
    completion racing over them. Every step is atomic; a call that takes several steps is
    counted while it is between two of them. */
module RunState {
  import opened Basics

  datatype State = Idle | Running | Paused | Stopping | Stopped | Completing | Completed

  datatype Action = ScenarioStarted | ScenarioStopped

  datatype Event = Event(action: Action, from: State, to: State)

  predicate LegalTransition(from: State, to: State) {
    match from
    case Idle => to.Running?
    case Running => to.Paused? || to.Stopping? || to.Completing?
    case Paused => to.Running? || to.Stopping?
    case Stopping => to.Stopped?
    case Completing => to.Completed?
    case Stopped => false
    case Completed => false
  }

  function AuditActionFor(to: State): Option<Action> {
    match to
    case Running => Some(ScenarioStarted)
    case Stopping => Some(ScenarioStopped)
    case Stopped => Some(ScenarioStopped)
    case Completed => Some(ScenarioStopped)
    case _ => None
  }

  predicate Terminal(s: State) {
    s.Stopped? || s.Completed?
  }

  /** The run and every call in flight on it.
      `pausing`, `resuming`: Pause and Resume past their transition, before their gate call.
      `draining`: Stop past its transition. `rejected`: Stop whose transition was refused,
      before it reads the state. `waiting`: Stop waiting for `done`.
      `blocks`: block timers still running; `finished`: block timers that ran out.
      `spawned`: completions ever started; `completes`: those not yet past their transition;
      `completing`: those waiting for the workers.
      `stopSignals`, `completeSignals`: calls about to signal done. `closes`: how often `done`
      was closed. `okStops`, `badStops`: Stop calls that returned nil and an error. */
  datatype Sys = Sys(state: State, path: seq<State>, audit: seq<Event>, opPaused: bool,
                     pausing: nat, resuming: nat, draining: nat, rejected: nat, waiting: nat,
                     blocks: nat, finished: nat, blocksLeft: int,
                     spawned: nat, completes: nat, completing: nat,
                     stopSignals: nat, completeSignals: nat, once: bool, closes: nat,
                     okStops: nat, badStops: nat)

  datatype Op =
    | PauseTry | PauseGate | ResumeTry | ResumeGate
    | StopTry | StopRead | StopDrained | StopSignal | StopAwaits
    | BlockDone | BlockCancelled
    | CompleteTry | CompleteDrained | CompleteSignal

  /** A run just started over `n` blocks. */
  function Start(n: nat): Sys {
    Sys(Running, [Idle, Running], [Event(ScenarioStarted, Idle, Running)], false,
        0, 0, 0, 0, 0, n, 0, n, 0, 0, 0, 0, 0, false, 0, 0, 0)
  }

  predicate Can(s: Sys, to: State) {
    LegalTransition(s.state, to)
  }

  /** What entering `to` appends to the audit trail. */
  function Trail(from: State, to: State): seq<Event> {
    match AuditActionFor(to)
    case Some(a) => [Event(a, from, to)]
    case None => []
  }

  function Moved(s: Sys, to: State): Sys {
    if !Can(s, to) then s
    else s.(state := to, path := s.path + [to], audit := s.audit + Trail(s.state, to))
  }

  function Signalled(s: Sys): Sys {
    if s.once then s else s.(once := true, closes := s.closes + 1)
  }

  /** A step no call is ready for does nothing. */
  function Step(s: Sys, op: Op): Sys {
    match op
    case PauseTry => if Can(s, Paused) then Moved(s, Paused).(pausing := s.pausing + 1) else s
    case PauseGate => if s.pausing > 0 then s.(pausing := s.pausing - 1, opPaused := true) else s
    case ResumeTry => if Can(s, Running) then Moved(s, Running).(resuming := s.resuming + 1) else s
    case ResumeGate => if s.resuming > 0 then s.(resuming := s.resuming - 1, opPaused := false) else s
    case StopTry =>
      if Can(s, Stopping) then Moved(s, Stopping).(draining := s.draining + 1)
      else s.(rejected := s.rejected + 1)
    case StopRead =>
      if s.rejected == 0 then s
      else if s.state.Stopped? || s.state.Completed? || s.state.Completing? then
        s.(rejected := s.rejected - 1, waiting := s.waiting + 1)
      else s.(rejected := s.rejected - 1, badStops := s.badStops + 1)
    case StopDrained =>
      if s.draining > 0 then Moved(s, Stopped).(draining := s.draining - 1, stopSignals := s.stopSignals + 1)
      else s
    case StopSignal =>
      if s.stopSignals > 0 then Signalled(s).(stopSignals := s.stopSignals - 1, okStops := s.okStops + 1) else s
    case StopAwaits =>
      if s.waiting > 0 && s.closes > 0 then s.(waiting := s.waiting - 1, okStops := s.okStops + 1) else s
    case BlockDone =>
      if s.blocks == 0 then s
      else
        var left := s.blocksLeft - 1;
        var u := s.(blocks := s.blocks - 1, finished := s.finished + 1, blocksLeft := left);
        if left == 0 then u.(spawned := s.spawned + 1, completes := s.completes + 1) else u
    case BlockCancelled => if s.blocks > 0 then s.(blocks := s.blocks - 1) else s
    case CompleteTry =>
      if s.completes == 0 then s
      else if Can(s, Completing) then
        Moved(s, Completing).(completes := s.completes - 1, completing := s.completing + 1)
      else s.(completes := s.completes - 1)
    case CompleteDrained =>
      if s.completing > 0 then
        Moved(s, Completed).(completing := s.completing - 1, completeSignals := s.completeSignals + 1)
      else s
    case CompleteSignal =>
      if s.completeSignals > 0 then Signalled(s).(completeSignals := s.completeSignals - 1) else s
  }

  function After(s: Sys, ops: seq<Op>): Sys
    decreases |ops|
  {
    if ops == [] then s else After(Step(s, ops[0]), ops[1..])
  }

  // ---------- the path and its audit trail ----------

  predicate FollowsTable(path: seq<State>) {
    forall i :: 0 <= i < |path| - 1 ==> LegalTransition(path[i], path[i + 1])
  }

  /** The events a path leaves. */
  function AuditOf(path: seq<State>): seq<Event> {
    if |path| <= 1 then []
    else AuditOf(path[..|path| - 1]) + Trail(path[|path| - 2], path[|path| - 1])
  }

  /** The steps of a path into a state whose entry is audited, by the index they leave. */
  function AuditedSteps(path: seq<State>): seq<nat> {
    if |path| <= 1 then []
    else AuditedSteps(path[..|path| - 1]) + IfAudited(path[|path| - 1], |path| - 2)
  }

  function IfAudited(to: State, step: nat): seq<nat> {
    if to in {Running, Stopping, Stopped, Completed} then [step] else []
  }

  predicate InOrder(steps: seq<nat>, n: nat) {
    && (forall j, k | 0 <= j < k < |steps| :: steps[j] < steps[k])
    && (forall k | 0 <= k < |steps| :: steps[k] + 1 < n)
  }

  /** They are those and no others, in order. */
  lemma {:induction false} AuditedStepsAre(path: seq<State>)
    ensures InOrder(AuditedSteps(path), |path|)
    ensures forall i: nat | i + 1 < |path| ::
              i in AuditedSteps(path) <==> path[i + 1] in {Running, Stopping, Stopped, Completed}
  {
    if |path| > 1 {
      var n := |path| - 1;
      var front := path[..n];
      AuditedStepsAre(front);
      assert forall k | 0 <= k < |AuditedSteps(front)| :: AuditedSteps(front)[k] < n - 1;
      forall i: nat | i + 1 < |path|
        ensures i in AuditedSteps(path) <==> path[i + 1] in {Running, Stopping, Stopped, Completed}
      {
        if i + 1 < n {
          assert front[i + 1] == path[i + 1];
          assert i in AuditedSteps(path) <==> i in AuditedSteps(front);
        } else {
          assert i !in AuditedSteps(front);
        }
      }
    }
  }

  /** The k-th event stands for the k-th audited step: where it left from, where it led, and a
      start for Running, a stop for the others. */
  predicate StandsFor(audit: seq<Event>, path: seq<State>) {
    var steps := AuditedSteps(path);
    && |audit| == |steps|
    && forall k | 0 <= k < |steps| ::
         steps[k] + 1 < |path| && Names(audit[k], path[steps[k]], path[steps[k] + 1])
  }

  predicate Names(e: Event, from: State, to: State) {
    e.from == from && e.to == to && e.action == if to.Running? then ScenarioStarted else ScenarioStopped
  }

  lemma {:induction false} AuditOfStandsFor(path: seq<State>)
    ensures StandsFor(AuditOf(path), path)
  {
    if |path| > 1 {
      hide StandsFor, Trail;
      var n := |path| - 1;
      AuditOfStandsFor(path[..n]);
      StandsForMore(AuditOf(path[..n]), path[..n], path[n]);
      assert path == path[..n] + [path[n]];
    } else {
      hide Trail;
    }
  }

  lemma StepsMore(path: seq<State>, to: State)
    requires path != []
    ensures AuditedSteps(path + [to]) == AuditedSteps(path) + IfAudited(to, |path| - 1)
  {
    hide IfAudited;
    assert (path + [to])[..|path|] == path;
  }

  lemma StandsForMore(audit: seq<Event>, path: seq<State>, to: State)
    requires path != [] && StandsFor(audit, path)
    ensures StandsFor(audit + Trail(path[|path| - 1], to), path + [to])
  {
    var steps := AuditedSteps(path);
    StepsMore(path, to);
    hide AuditedSteps;
    var all, longer, grown := AuditedSteps(path + [to]), path + [to], audit + Trail(path[|path| - 1], to);
    forall k | 0 <= k < |all|
      ensures all[k] + 1 < |longer| && Names(grown[k], longer[all[k]], longer[all[k] + 1])
    {
      if k < |steps| {
        assert all[k] == steps[k] && grown[k] == audit[k];
      }
    }
  }

  lemma NothingAfter(from: State, to: State)
    requires LegalTransition(from, to)
    ensures !Terminal(from)
  {
  }

  /** A path ends where it first meets a terminal state, so it never meets both. */
  lemma {:induction false} TerminalEndsPath(path: seq<State>, i: nat)
    requires FollowsTable(path) && i < |path| && Terminal(path[i])
    ensures i == |path| - 1
  {
    if i < |path| - 1 {
      NothingAfter(path[i], path[i + 1]);
    }
  }

  predicate GoodPath(s: Sys) {
    && |s.path| >= 2 && s.path[0] == Idle && s.path[1] == Running
    && FollowsTable(s.path) && s.state == s.path[|s.path| - 1]
    && s.audit == AuditOf(s.path)
  }

  lemma TransitionKeepsPath(s: Sys, to: State)
    requires GoodPath(s)
    ensures GoodPath(Moved(s, to))
  {
    if Can(s, to) {
      var path := s.path + [to];
      assert path[..|path| - 1] == s.path;
      assert FollowsTable(path);
    }
  }

  // ---------- the invariant ----------

  /** At most one Stop drains and at most one completion waits, in the state it made; `done` is
      closed once at most, only in a terminal state, and never forgotten there. */
  predicate Calls(s: Sys) {
    && s.closes == (if s.once then 1 else 0)
    && s.draining == (if s.state.Stopping? then 1 else 0)
    && s.completing == (if s.state.Completing? then 1 else 0)
    && (s.stopSignals > 0 ==> s.state.Stopped?) && (s.completeSignals > 0 ==> s.state.Completed?)
    && (s.once ==> Terminal(s.state))
    && (Terminal(s.state) ==> s.once || s.stopSignals > 0 || s.completeSignals > 0)
    && (s.rejected > 0 ==> s.state.Stopping? || s.state.Completing? || Terminal(s.state))
    && (s.waiting > 0 ==> s.state.Completing? || Terminal(s.state))
    && (s.okStops > 0 ==> s.once)
    && !s.state.Idle?
  }

  /** Completion is started by the last of the `n` block timers to run out, once. */
  predicate Blocks(s: Sys, n: nat) {
    && s.blocksLeft == n - s.finished && s.blocks <= s.blocksLeft
    && s.spawned == (if n > 0 && s.finished == n then 1 else 0)
    && s.completes + s.completing + s.completeSignals <= s.spawned
    && (s.state.Completed? || s.state.Completing? ==> s.spawned == 1 && s.completes == 0)
  }

  predicate Inv(s: Sys, n: nat) {
    GoodPath(s) && Calls(s) && Blocks(s, n)
  }

  lemma StartInv(n: nat)
    ensures Inv(Start(n), n)
  {
    assert AuditOf([Idle]) == [];
    assert [Idle, Running][..1] == [Idle];
  }

  lemma SamePath(s: Sys, u: Sys)
    requires GoodPath(s) && s.state == u.state && s.path == u.path && s.audit == u.audit
    ensures GoodPath(u)
  {
  }

  predicate OfStop(op: Op) {
    op.StopTry? || op.StopRead? || op.StopDrained? || op.StopSignal? || op.StopAwaits?
  }

  predicate OfCompletion(op: Op) {
    op.CompleteTry? || op.CompleteDrained? || op.CompleteSignal?
  }

  /** The state an operation tries to enter. */
  function Target(s: Sys, op: Op): Option<State> {
    match op
    case PauseTry => Some(Paused)
    case ResumeTry => Some(Running)
    case StopTry => Some(Stopping)
    case StopDrained => if s.draining > 0 then Some(Stopped) else None
    case CompleteTry => if s.completes > 0 then Some(Completing) else None
    case CompleteDrained => if s.completing > 0 then Some(Completed) else None
    case _ => None
  }

  /** Of path, state and audit trail a step changes only what its transition changes. */
  predicate MovesTo(s: Sys, op: Op) {
    var u, to := Step(s, op), Target(s, op);
    var v := if to.Some? then Moved(s, to.value) else s;
    v.state == u.state && v.path == u.path && v.audit == u.audit
  }

  lemma StopMovesTo(s: Sys, op: Op)
    requires OfStop(op)
    ensures MovesTo(s, op)
  {
    hide Trail, LegalTransition;
  }

  lemma CompletionMovesTo(s: Sys, op: Op)
    requires OfCompletion(op)
    ensures MovesTo(s, op)
  {
    hide Trail, LegalTransition;
  }

  lemma OthersMoveTo(s: Sys, op: Op)
    requires !OfStop(op) && !OfCompletion(op)
    ensures MovesTo(s, op)
  {
    hide Trail, LegalTransition;
  }

  lemma StepMovesTo(s: Sys, op: Op)
    ensures MovesTo(s, op)
  {
    hide MovesTo;
    if OfStop(op) {
      StopMovesTo(s, op);
    } else if OfCompletion(op) {
      CompletionMovesTo(s, op);
    } else {
      OthersMoveTo(s, op);
    }
  }

  lemma StepKeepsPath(s: Sys, op: Op)
    requires GoodPath(s)
    ensures GoodPath(Step(s, op))
  {
    hide GoodPath, Step, Moved, Target;
    StepMovesTo(s, op);
    var to := Target(s, op);
    if to.Some? {
      TransitionKeepsPath(s, to.value);
      SamePath(Moved(s, to.value), Step(s, op));
    } else {
      SamePath(s, Step(s, op));
    }
  }

  predicate Rest(s: Sys, n: nat) {
    Calls(s) && Blocks(s, n)
  }

  lemma StopKeeps(s: Sys, op: Op, n: nat)
    requires Rest(s, n) && OfStop(op)
    ensures Rest(Step(s, op), n)
  {
    hide Trail;
  }

  lemma CompletionKeeps(s: Sys, op: Op, n: nat)
    requires Rest(s, n) && OfCompletion(op)
    ensures Rest(Step(s, op), n)
  {
    hide Trail;
  }

  lemma OthersKeep(s: Sys, op: Op, n: nat)
    requires Rest(s, n) && !OfStop(op) && !OfCompletion(op)
    ensures Rest(Step(s, op), n)
  {
    hide Trail;
  }

  lemma StepKeeps(s: Sys, op: Op, n: nat)
    requires Inv(s, n)
    ensures Inv(Step(s, op), n)
  {
    hide Step, GoodPath, Calls, Blocks;
    StepKeepsPath(s, op);
    if OfStop(op) {
      StopKeeps(s, op, n);
    } else if OfCompletion(op) {
      CompletionKeeps(s, op, n);
    } else {
      OthersKeep(s, op, n);
    }
  }

  lemma {:induction false} AfterKeeps(s: Sys, ops: seq<Op>, n: nat)
    requires Inv(s, n)
    ensures Inv(After(s, ops), n)
    decreases |ops|
  {
    if ops != [] {
      hide Inv, Step;
      StepKeeps(s, ops[0], n);
      AfterKeeps(Step(s, ops[0]), ops[1..], n);
    }
  }

  /** Over every interleaving: the states follow the table from Running; a run that was Stopped
      was never Completed; the audit trail has one event for each step of the path into Running,
      Stopping, Stopped or Completed, in order, with the states it led between; `done` is closed
      at most once and only in a terminal state, where its closing is done or under way;
      completion is started at most once. */
  lemma EveryInterleaving(n: nat, ops: seq<Op>)
    ensures var s := After(Start(n), ops);
            && FollowsTable(s.path) && |s.path| >= 2 && s.path[0] == Idle && s.path[1] == Running
            && s.path[|s.path| - 1] == s.state
            && !(Stopped in s.path && Completed in s.path)
            && StandsFor(s.audit, s.path)
            && s.closes <= 1 && (s.closes == 1 ==> Terminal(s.state))
            && (Terminal(s.state) ==> s.closes == 1 || s.stopSignals > 0 || s.completeSignals > 0)
            && s.spawned <= 1 && (s.spawned == 1 <==> n > 0 && s.finished == n)
            && (s.okStops > 0 ==> s.closes == 1)
  {
    hide After, Start, AuditOf, LegalTransition, FollowsTable, StandsFor;
    StartInv(n);
    AfterKeeps(Start(n), ops, n);
    var s := After(Start(n), ops);
    AuditOfStandsFor(s.path);
    forall i | 0 <= i < |s.path| && Terminal(s.path[i])
      ensures i == |s.path| - 1
    {
      TerminalEndsPath(s.path, i);
    }
  }

  // ---------- what the audit trail tells ----------

  function CountOf(audit: seq<Event>, action: Action): nat {
    if audit == [] then 0
    else CountOf(audit[..|audit| - 1], action) + if audit[|audit| - 1].action == action then 1 else 0
  }

  function EntriesToRunning(path: seq<State>): nat {
    if path == [] then 0
    else EntriesToRunning(path[..|path| - 1]) + if path[|path| - 1].Running? then 1 else 0
  }

  /** One start event for the start and for every resume; two stop events for a stopped run, one
      for a stopping or a completed one, none before. The last event of a run past Running and
      Paused names the state it is in, except while it completes. */
  predicate TrailFits(s: Sys) {
    && CountOf(s.audit, ScenarioStarted) == EntriesToRunning(s.path)
    && CountOf(s.audit, ScenarioStopped)
       == (if s.state.Stopped? then 2 else if s.state.Stopping? || s.state.Completed? then 1 else 0)
    && (s.state.Stopping? || Terminal(s.state) ==> s.audit != [] && s.audit[|s.audit| - 1].to == s.state)
  }

  lemma CountOne(audit: seq<Event>, e: Event, action: Action)
    ensures CountOf(audit + [e], action) == CountOf(audit, action) + if e.action == action then 1 else 0
  {
    assert (audit + [e])[..|audit|] == audit;
  }

  lemma EntriesOne(path: seq<State>, to: State)
    ensures EntriesToRunning(path + [to]) == EntriesToRunning(path) + if to.Running? then 1 else 0
  {
    assert (path + [to])[..|path|] == path;
  }

  lemma MovedFits(s: Sys, to: State)
    requires TrailFits(s)
    ensures TrailFits(Moved(s, to))
  {
    hide CountOf, EntriesToRunning;
    EntriesOne(s.path, to);
    match AuditActionFor(to)
    case Some(action) =>
      CountOne(s.audit, Event(action, s.state, to), ScenarioStarted);
      CountOne(s.audit, Event(action, s.state, to), ScenarioStopped);
    case None =>
      assert s.audit + [] == s.audit;
  }

  lemma SameFit(s: Sys, u: Sys)
    requires TrailFits(s) && s.state == u.state && s.path == u.path && s.audit == u.audit
    ensures TrailFits(u)
  {
  }

  lemma StepFits(s: Sys, op: Op)
    requires TrailFits(s)
    ensures TrailFits(Step(s, op))
  {
    hide TrailFits, Step, Moved, Target;
    StepMovesTo(s, op);
    var to := Target(s, op);
    if to.Some? {
      MovedFits(s, to.value);
      SameFit(Moved(s, to.value), Step(s, op));
    } else {
      SameFit(s, Step(s, op));
    }
  }

  lemma {:induction false} TrailAlwaysFits(s: Sys, ops: seq<Op>)
    requires TrailFits(s)
    ensures TrailFits(After(s, ops))
    decreases |ops|
  {
    if ops != [] {
      hide TrailFits, Step;
      StepFits(s, ops[0]);
      TrailAlwaysFits(Step(s, ops[0]), ops[1..]);
    }
  }

  lemma AuditTellsTheEnd(n: nat, ops: seq<Op>)
    ensures TrailFits(After(Start(n), ops))
  {
    var start := [Event(ScenarioStarted, Idle, Running)];
    assert start[..0] == [] && [Idle, Running][..1] == [Idle] && [Idle][..0] == [];
    assert TrailFits(Start(n));
    TrailAlwaysFits(Start(n), ops);
  }

  // ---------- Stop ----------

  /** A Stop whose transition was refused returns an error exactly when, at the moment it reads
      the state, another Stop is still draining. So Stop is not idempotent while it runs. */
  lemma StopErrorIff(n: nat, ops: seq<Op>)
    ensures var s := After(Start(n), ops);
            s.rejected > 0 ==> (Step(s, StopRead).badStops == s.badStops + 1 <==> s.draining > 0)
  {
    hide After, Start, GoodPath, Blocks;
    StartInv(n);
    AfterKeeps(Start(n), ops, n);
  }

  lemma SecondStopFails(n: nat)
    ensures After(Start(n), [StopTry, StopTry, StopRead]).badStops == 1
  {
    var s1 := Step(Start(n), StopTry);
    var s2 := Step(s1, StopTry);
    var ops := [StopTry, StopTry, StopRead];
    assert ops[1..] == [StopTry, StopRead] && ops[1..][1..] == [StopRead] && [StopRead][1..] == [];
    assert After(Start(n), ops) == After(s1, ops[1..]) == After(s2, [StopRead]) == After(Step(s2, StopRead), []);
  }

  // ---------- completion ----------

  /** A completion that finds the run paused gives up, and no other will ever start: from then
      on only Stop can end the run. */
  predicate GivenUp(s: Sys) {
    s.spawned == 1 && s.completes == 0 && !s.state.Completing? && !s.state.Completed?
  }

  lemma {:induction false} GivenUpForGood(s: Sys, n: nat, ops: seq<Op>)
    requires Inv(s, n) && GivenUp(s)
    ensures GivenUp(After(s, ops))
    decreases |ops|
  {
    if ops != [] {
      StepKeeps(s, ops[0], n);
      StillGivenUp(s, n, ops[0]);
      GivenUpForGood(Step(s, ops[0]), n, ops[1..]);
    }
  }

  lemma StillGivenUp(s: Sys, n: nat, op: Op)
    requires Inv(s, n) && GivenUp(s)
    ensures GivenUp(Step(s, op))
  {
    hide GoodPath;
  }

  /** The only completion succeeds exactly when it finds the run Running; otherwise the run
      never completes, whatever happens later. */
  lemma CompletesIff(n: nat, before: seq<Op>, ops: seq<Op>)
    requires After(Start(n), before).completes > 0
    ensures var s := After(Start(n), before);
            && (s.state.Running? ==> Step(s, CompleteTry).state.Completing?)
            && (!s.state.Running? ==>
                  var u := After(Step(s, CompleteTry), ops); !u.state.Completing? && !u.state.Completed?)
  {
    hide After, Start;
    StartInv(n);
    AfterKeeps(Start(n), before, n);
    var s := After(Start(n), before);
    if !s.state.Running? {
      StepKeeps(s, CompleteTry, n);
      GivenUpForGood(Step(s, CompleteTry), n, ops);
    }
  }

  /** It can find the run paused: the one block's timer runs out, and a Pause gets in first. */
  lemma CompletionCanGiveUp()
    ensures var s := After(Start(1), [BlockDone, PauseTry]);
            s.completes > 0 && s.state.Paused? && GivenUp(Step(s, CompleteTry))
  {
    hide *;
    AfterTwo(Start(1), BlockDone, PauseTry);
    OneBlockDone();
    PausedBefore(Step(Start(1), BlockDone));
  }

  lemma OneBlockDone()
    ensures var s := Step(Start(1), BlockDone); s.state.Running? && s.completes == 1 && s.spawned == 1
  {
  }

  lemma PausedBefore(s: Sys)
    requires s.state.Running? && s.completes == 1 && s.spawned == 1
    ensures var u := Step(s, PauseTry); u.completes > 0 && u.state.Paused? && GivenUp(Step(u, CompleteTry))
  {
    hide Trail;
  }

  lemma AfterTwo(s: Sys, a: Op, b: Op)
    ensures After(s, [a, b]) == Step(Step(s, a), b)
  {
    hide Step;
    AfterOne(s, [a], b);
    AfterOne(s, [], a);
    assert [a] + [b] == [a, b];
  }

  // ---------- the operator's gate ----------

  /** Pending gate calls carried out in some order: true pauses, false resumes. */
  function GateAfter(gate: bool, order: seq<bool>): bool {
    if order == [] then gate else order[|order| - 1]
  }

  predicate Orders(s: Sys, order: seq<bool>) {
    multiset(order)[true] == s.pausing && multiset(order)[false] == s.resuming
  }

  function GateOps(order: seq<bool>): (ops: seq<Op>)
    ensures |ops| == |order|
  {
    if order == [] then [] else [if order[0] then PauseGate else ResumeGate] + GateOps(order[1..])
  }

  /** Whatever the order, the gate ends up matching the state. */
  ghost predicate SettlesRight(s: Sys) {
    forall order: seq<bool> :: Orders(s, order) ==> After(s, GateOps(order)).opPaused == s.state.Paused?
  }

  lemma GateOpRun(s: Sys, order: seq<bool>)
    requires Orders(s, order) && order != []
    ensures var u := Step(s, GateOps(order)[0]);
            && u == s.(opPaused := order[0], pausing := u.pausing, resuming := u.resuming)
            && Orders(u, order[1..])
  {
    assert order == [order[0]] + order[1..];
    assert multiset(order) == multiset{order[0]} + multiset(order[1..]);
  }

  /** Carrying the pending gate calls out leaves the last one's gate, no call pending, and the
      state as it was. */
  lemma {:induction false} GateOpsRun(s: Sys, order: seq<bool>)
    requires Orders(s, order)
    ensures After(s, GateOps(order))
            == s.(opPaused := GateAfter(s.opPaused, order), pausing := 0, resuming := 0)
    decreases |order|
  {
    if order == [] {
      assert multiset(order) == multiset{};
    } else {
      GateOpRun(s, order);
      hide Orders, Step;
      assert GateOps(order)[1..] == GateOps(order[1..]);
      GateOpsRun(Step(s, GateOps(order)[0]), order[1..]);
    }
  }

  function Repeat(b: bool, n: nat): (r: seq<bool>)
    ensures |r| == n && multiset(r)[b] == n && multiset(r)[!b] == 0
    ensures forall i :: 0 <= i < n ==> r[i] == b
  {
    if n == 0 then [] else Repeat(b, n - 1) + [b]
  }

  /** The calls on their way, those of the other kind last. */
  lemma WorstOrder(s: Sys) returns (order: seq<bool>)
    ensures Orders(s, order)
    ensures var wrong := if s.state.Paused? then s.resuming else s.pausing;
            if wrong > 0 then GateAfter(s.opPaused, order) != s.state.Paused?
            else s.pausing + s.resuming == 0 ==> order == []
  {
    var right := s.state.Paused?;
    var same, wrong := if right then s.pausing else s.resuming, if right then s.resuming else s.pausing;
    var last := Repeat(!right, wrong);
    order := Repeat(right, same) + last;
    if wrong > 0 {
      assert last[wrong - 1] == !right;
      assert order[|order| - 1] == last[wrong - 1];
    }
  }

  lemma SomeOrderIsNonEmpty(s: Sys, order: seq<bool>)
    requires Orders(s, order)
    ensures order == [] <==> s.pausing + s.resuming == 0
    ensures order != [] && order[|order| - 1] ==> s.pausing > 0
    ensures order != [] && !order[|order| - 1] ==> s.resuming > 0
  {
    if order == [] {
      assert multiset(order) == multiset{};
    } else {
      var last := order[|order| - 1];
      assert multiset(order)[last] > 0;
      assert last == true || last == false;
    }
  }

  /** Pause and Resume change the state and the gate in two steps. However the gate calls still
      on their way are ordered, the operator's gate ends up matching the state exactly when
      none of them is of the other kind, and one of the right kind is coming or the gate is
      already right. */
  lemma GateSettlesRightIff(s: Sys)
    ensures SettlesRight(s) <==>
              if s.state.Paused? then s.resuming == 0 && (s.pausing > 0 || s.opPaused)
              else s.pausing == 0 && (s.resuming > 0 || !s.opPaused)
  {
    hide Orders, After, GateOps;
    var worst := WorstOrder(s);
    forall order: seq<bool> | Orders(s, order)
      ensures order == [] <==> s.pausing + s.resuming == 0
      ensures order != [] && order[|order| - 1] ==> s.pausing > 0
      ensures order != [] && !order[|order| - 1] ==> s.resuming > 0
      ensures After(s, GateOps(order)).opPaused == GateAfter(s.opPaused, order)
    {
      SomeOrderIsNonEmpty(s, order);
      GateOpsRun(s, order);
    }
  }

  // ---------- which runs keep the gate right ----------

  /** No Pause or Resume succeeds while a call of the other kind is still between its two steps. */
  predicate Guarded(s: Sys, op: Op) {
    && (op.ResumeTry? && Can(s, Running) ==> s.pausing == 0)
    && (op.PauseTry? && Can(s, Paused) ==> s.resuming == 0)
  }

  predicate AllGuarded(s: Sys, ops: seq<Op>)
    decreases |ops|
  {
    ops != [] ==> Guarded(s, ops[0]) && AllGuarded(Step(s, ops[0]), ops[1..])
  }

  /** The operator's gate is right, or will be once the calls in flight are through. */
  ghost predicate GateRight(s: Sys) {
    s.state.Running? || s.state.Paused? ==> SettlesRight(s)
  }

  predicate GateInStep(s: Sys) {
    && !s.state.Idle?
    && (s.state.Running? ==> s.pausing == 0 && (s.resuming > 0 || !s.opPaused))
    && (s.state.Paused? ==> s.resuming == 0 && (s.pausing > 0 || s.opPaused))
  }

  lemma GateRightIff(s: Sys)
    requires !s.state.Idle?
    ensures GateRight(s) <==> GateInStep(s)
  {
    hide SettlesRight;
    GateSettlesRightIff(s);
  }

  lemma GuardedStep(s: Sys, op: Op)
    requires GateInStep(s)
    ensures GateInStep(Step(s, op)) <==> Guarded(s, op)
    ensures !Step(s, op).state.Idle?
  {
    hide Trail;
  }

  lemma {:induction false} GuardedKeepsRight(s: Sys, ops: seq<Op>)
    requires GateInStep(s) && AllGuarded(s, ops)
    ensures GateInStep(After(s, ops))
    decreases |ops|
  {
    if ops != [] {
      hide GateInStep, Step, Guarded;
      GuardedStep(s, ops[0]);
      GuardedKeepsRight(Step(s, ops[0]), ops[1..]);
    }
  }

  lemma {:induction false} PrefixGuarded(s: Sys, ops: seq<Op>, k: nat)
    requires AllGuarded(s, ops) && k <= |ops|
    ensures AllGuarded(s, ops[..k])
    decreases |ops|
  {
    if k > 0 {
      hide Step, Guarded;
      assert ops[..k][1..] == ops[1..][..k - 1];
      PrefixGuarded(Step(s, ops[0]), ops[1..], k - 1);
    }
  }

  /** The first unguarded step leaves the gate wrong. */
  lemma {:induction false} UnguardedGoesWrong(s: Sys, ops: seq<Op>) returns (k: nat)
    requires GateInStep(s) && !AllGuarded(s, ops)
    ensures k <= |ops| && !GateRight(After(s, ops[..k]))
    decreases |ops|
  {
    hide GateInStep, Step, Guarded, GateRight;
    GuardedStep(s, ops[0]);
    if Guarded(s, ops[0]) {
      k := UnguardedGoesWrong(Step(s, ops[0]), ops[1..]);
      assert ops[..k + 1][1..] == ops[1..][..k];
      k := k + 1;
    } else {
      k := 1;
      assert ops[..1][1..] == [];
      GateRightIff(Step(s, ops[0]));
    }
  }

  /** The operator's gate is right at every moment of a run, or will be once the calls in flight
      are through in whatever order, exactly when no Pause or Resume ever succeeds while a call
      of the other kind is still in flight. */
  lemma GateRightThroughoutIff(n: nat, ops: seq<Op>)
    ensures (forall k | 0 <= k <= |ops| :: GateRight(After(Start(n), ops[..k]))) <==> AllGuarded(Start(n), ops)
  {
    var s := Start(n);
    assert GateInStep(s);
    hide GateInStep, AllGuarded, GateRight, Start, After;
    if AllGuarded(s, ops) {
      forall k | 0 <= k <= |ops|
        ensures GateRight(After(s, ops[..k]))
      {
        PrefixGuarded(s, ops, k);
        GuardedKeepsRight(s, ops[..k]);
        InStepIsRight(After(s, ops[..k]));
      }
    } else {
      var k := UnguardedGoesWrong(s, ops);
    }
  }

  lemma InStepIsRight(s: Sys)
    requires GateInStep(s)
    ensures GateRight(s)
  {
    GateRightIff(s);
  }

  /** A Resume that overtakes a Pause between its two steps: the run is Running, no call is in
      flight, and the operator's gate is paused. */
  lemma PausedThoughRunning(n: nat)
    ensures var s := After(Start(n), [PauseTry, ResumeTry, ResumeGate, PauseGate]);
            s.state.Running? && s.pausing == 0 && s.resuming == 0 && s.opPaused
  {
    var ops := [PauseTry, ResumeTry, ResumeGate, PauseGate];
    var s1 := Step(Start(n), PauseTry);
    var s2 := Step(s1, ResumeTry);
    var s3 := Step(s2, ResumeGate);
    assert ops[1..] == [ResumeTry, ResumeGate, PauseGate];
    assert ops[1..][1..] == [ResumeGate, PauseGate] && [ResumeGate, PauseGate][1..] == [PauseGate];
    assert After(s3, [PauseGate]) == After(Step(s3, PauseGate), []) by {
      assert [PauseGate][1..] == [];
    }
    assert After(Start(n), ops) == After(s1, ops[1..]) == After(s2, [ResumeGate, PauseGate]) == After(s3, [PauseGate]);
  }

  // ---------- the code ----------

  lemma {:induction false} AfterAppend(s: Sys, a: seq<Op>, b: seq<Op>)
    ensures After(s, a + b) == After(After(s, a), b)
    decreases |a|
  {
    if a == [] {
      assert a + b == b;
    } else {
      assert (a + b)[1..] == a[1..] + b && (a + b)[0] == a[0];
      AfterAppend(Step(s, a[0]), a[1..], b);
    }
  }

  lemma AfterOne(s: Sys, ops: seq<Op>, op: Op)
    ensures After(s, ops + [op]) == Step(After(s, ops), op) && After(s, [op]) == Step(s, op)
  {
    assert [op][1..] == [];
    assert After(After(s, ops), [op]) == After(Step(After(s, ops), op), []);
    AfterAppend(s, ops, [op]);
  }

  lemma ThreeParts(s: Sys, first: Op, between: seq<Op>, last: Op)
    ensures After(s, [first] + between + [last]) == Step(After(Step(s, first), between), last)
  {
    AfterOne(s, [first] + between, last);
    AfterOne(s, [], first);
    AfterAppend(s, [first], between);
  }

  /** Between a Stop's first step and its next, the state is never Running or Paused; and a
      Stop that got its transition finds the run Stopping, or already Stopped. */
  lemma StopTried(s: Sys, between: seq<Op>, n: nat)
    requires Inv(s, n)
    ensures var mid := After(Step(s, StopTry), between);
            && Inv(mid, n) && mid == After(s, [StopTry] + between)
            && !mid.state.Idle? && !mid.state.Running? && !mid.state.Paused?
            && (Can(s, Stopping) ==> mid.state.Stopping? || mid.state.Stopped?)
  {
    StepKeeps(s, StopTry, n);
    AfterKeeps(Step(s, StopTry), between, n);
    AfterOne(s, [], StopTry);
    AfterAppend(s, [StopTry], between);
    hide GoodPath, After;
    NeverLeaves(Step(s, StopTry), between, n);
  }

  /** Once a run is past Running and Paused it stays past; Stopping leads only to Stopped, and
      Completing only to Completed. */
  lemma {:induction false} NeverLeaves(s: Sys, ops: seq<Op>, n: nat)
    requires Inv(s, n) && !s.state.Running? && !s.state.Paused?
    ensures var u := After(s, ops).state;
            && !u.Idle? && !u.Running? && !u.Paused?
            && (s.state.Stopping? || s.state.Stopped? ==> u.Stopping? || u.Stopped?)
            && (s.state.Completing? || s.state.Completed? ==> u.Completing? || u.Completed?)
            && (s.state.Stopped? ==> u.Stopped?) && (s.state.Completed? ==> u.Completed?)
    decreases |ops|
  {
    if ops != [] {
      StepNeverLeaves(s, ops[0], n);
      StepKeeps(s, ops[0], n);
      hide Inv, Step;
      NeverLeaves(Step(s, ops[0]), ops[1..], n);
    } else {
      hide GoodPath, Blocks;
    }
  }

  lemma StepNeverLeaves(s: Sys, op: Op, n: nat)
    requires Inv(s, n) && !s.state.Running? && !s.state.Paused?
    ensures var u := Step(s, op).state;
            && !u.Running? && !u.Paused?
            && (s.state.Stopping? || s.state.Stopped? ==> u.Stopping? || u.Stopped?)
            && (s.state.Completing? || s.state.Completed? ==> u.Completing? || u.Completed?)
            && (s.state.Stopped? ==> u.Stopped?) && (s.state.Completed? ==> u.Completed?)
  {
    hide GoodPath, Trail, Blocks;
  }

  lemma DoneMeans(s: Sys, n: nat)
    requires Inv(s, n) && s.closes > 0
    ensures s.closes == 1 && Terminal(s.state)
    ensures Step(s, StopAwaits).closes == 1 && Step(s, StopAwaits).state == s.state
  {
    hide GoodPath, Blocks;
  }

  lemma DrainedIsStopped(s: Sys, n: nat)
    requires Inv(s, n) && (s.state.Stopping? || s.state.Stopped?)
    ensures Step(s, StopDrained).state == Stopped
  {
    hide GoodPath, Blocks, Trail;
  }

  lemma StoppedStays(s: Sys, ops: seq<Op>, n: nat)
    requires Inv(s, n) && s.state.Stopped?
    ensures Inv(After(s, ops), n) && After(s, ops).state.Stopped?
  {
    AfterKeeps(s, ops, n);
    NeverLeaves(s, ops, n);
  }

  lemma SignalledIsDone(s: Sys, n: nat)
    requires Inv(s, n) && s.state.Stopped?
    ensures Step(s, StopSignal).closes == 1 && Step(s, StopSignal).state.Stopped?
  {
    hide GoodPath, Blocks;
  }

  datatype StopResult = Nil | Error | AwaitsDone

  /** The steps a completion takes, with those of others in between. */
  function CompleteSteps(between: seq<Op>, later: seq<Op>): seq<Op> {
    [CompleteTry] + between + [CompleteDrained] + later + [CompleteSignal]
  }

  lemma CompleteParts(s: Sys, between: seq<Op>, later: seq<Op>)
    ensures After(s, CompleteSteps(between, later))
            == Step(After(Step(After(Step(s, CompleteTry), between), CompleteDrained), later), CompleteSignal)
  {
    hide Step;
    ThreeParts(s, CompleteTry, between, CompleteDrained);
    AfterAppend(s, [CompleteTry] + between + [CompleteDrained], later);
    AfterOne(s, [CompleteTry] + between + [CompleteDrained] + later, CompleteSignal);
  }

  lemma TryCompletes(s: Sys)
    requires s.completes > 0 && Can(s, Completing)
    ensures Step(s, CompleteTry).state.Completing?
  {
  }

  lemma DrainedIsCompleted(s: Sys, n: nat)
    requires Inv(s, n) && (s.state.Completing? || s.state.Completed?)
    ensures Step(s, CompleteDrained).state.Completed?
  {
    hide GoodPath, Blocks, Trail;
  }

  lemma SignalledIsClosed(s: Sys, n: nat)
    requires Inv(s, n) && s.state.Completed?
    ensures Step(s, CompleteSignal).closes == 1 && Step(s, CompleteSignal).state.Completed?
  {
    hide GoodPath, Blocks;
  }

  /** A completion that got its transition ends the run Completed with done closed, whatever
      other calls do meanwhile. */
  lemma CompleteEnds(s: Sys, between: seq<Op>, later: seq<Op>, n: nat)
    requires Inv(s, n) && s.completes > 0 && Can(s, Completing)
    ensures var u := After(s, CompleteSteps(between, later)); Inv(u, n) && u.state.Completed? && u.closes == 1
  {
    hide *;
    CompleteParts(s, between, later);
    TryCompletes(s);
    StepKeeps(s, CompleteTry, n);
    var a := Step(s, CompleteTry);
    AfterKeeps(a, between, n);
    NeverLeaves(a, between, n);
    var b := After(a, between);
    StepKeeps(b, CompleteDrained, n);
    DrainedIsCompleted(b, n);
    var c := Step(b, CompleteDrained);
    AfterKeeps(c, later, n);
    NeverLeaves(c, later, n);
    StepKeeps(After(c, later), CompleteSignal, n);
    SignalledIsClosed(After(c, later), n);
  }

  /** The steps a Stop takes, with those of others in between. */
  function StopSteps(accepted: bool, r: StopResult, between: seq<Op>, later: seq<Op>): seq<Op> {
    if accepted then [StopTry] + between + [StopDrained] + later + [StopSignal]
    else match r
      case Error => [StopTry] + between + [StopRead]
      case AwaitsDone => [StopTry] + between + [StopRead] + later
      case Nil => [StopTry] + between + [StopRead] + later + [StopAwaits]
  }

  class Run {
    var state: State
    var audit: seq<Event>
    var opPaused: bool
    var blocksLeft: int
    var doneOnce: bool
    var done: nat
    // The calls in flight and the path so far.
    var calls: Sys

    function View(): Sys
      reads this
    {
      calls.(state := state, audit := audit, opPaused := opPaused, blocksLeft := blocksLeft, once := doneOnce,
             closes := done)
    }

    constructor (n: nat)
      ensures View() == Start(n)
    {
      state, audit, opPaused, blocksLeft, doneOnce, done := Idle, [], false, n, false, 0;
      calls := Start(n).(path := [Idle]);
      new;
      var ok := TransitionTo(Running);
    }

    method TransitionTo(to: State) returns (ok: bool)
      modifies this
      ensures ok == Can(old(View()), to) && View() == Moved(old(View()), to)
      ensures ok <==> (old(state), to) in {(Idle, Running), (Running, Paused), (Running, Stopping),
                                           (Running, Completing), (Paused, Running), (Paused, Stopping),
                                           (Stopping, Stopped), (Completing, Completed)}
      ensures state == if ok then to else old(state)
      ensures audit == old(audit) + if ok && to.Running? then [Event(ScenarioStarted, old(state), to)]
                                    else if ok && (to.Stopping? || to.Stopped? || to.Completed?) then
                                      [Event(ScenarioStopped, old(state), to)]
                                    else []
    {
      ok := LegalTransition(state, to);
      if !ok {
        return;
      }
      match AuditActionFor(to) {
        case Some(action) => audit := audit + [Event(action, state, to)];
        case None =>
      }
      state := to;
      calls := calls.(path := calls.path + [to]);
    }

    method SignalDone()
      modifies this
      ensures View() == Signalled(old(View()))
    {
      if !doneOnce {
        doneOnce, done := true, done + 1;
      }
    }

    /** One atomic step of some call. */
    method Act(op: Op)
      modifies this
      ensures View() == Step(old(View()), op)
    {
      hide Trail;
      if op.PauseTry? || op.PauseGate? || op.ResumeTry? || op.ResumeGate? {
        ActOnGate(op);
      } else if OfStop(op) {
        ActOfStop(op);
      } else if OfCompletion(op) {
        ActOfCompletion(op);
      } else {
        ActOfBlock(op);
      }
    }

    method ActOnGate(op: Op)
      requires op.PauseTry? || op.PauseGate? || op.ResumeTry? || op.ResumeGate?
      modifies this
      ensures View() == Step(old(View()), op)
    {
      hide Trail;
      match op
      case PauseTry =>
        var ok := TransitionTo(Paused);
        if ok {
          calls := calls.(pausing := calls.pausing + 1);
        }
      case PauseGate =>
        if calls.pausing > 0 {
          opPaused := true;
          calls := calls.(pausing := calls.pausing - 1);
        }
      case ResumeTry =>
        var ok := TransitionTo(Running);
        if ok {
          calls := calls.(resuming := calls.resuming + 1);
        }
      case ResumeGate =>
        if calls.resuming > 0 {
          opPaused := false;
          calls := calls.(resuming := calls.resuming - 1);
        }
    }

    method ActOfStop(op: Op)
      requires OfStop(op)
      modifies this
      ensures View() == Step(old(View()), op)
    {
      hide Trail;
      match op
      case StopTry => StopTries();
      case StopRead => StopReads();
      case StopDrained =>
        if calls.draining > 0 {
          var ok := TransitionTo(Stopped);
          calls := calls.(draining := calls.draining - 1, stopSignals := calls.stopSignals + 1);
        }
      case StopSignal =>
        if calls.stopSignals > 0 {
          SignalDone();
          calls := calls.(stopSignals := calls.stopSignals - 1, okStops := calls.okStops + 1);
        }
      case StopAwaits =>
        if calls.waiting > 0 && done > 0 {
          calls := calls.(waiting := calls.waiting - 1, okStops := calls.okStops + 1);
        }
    }

    method StopTries()
      modifies this
      ensures View() == Step(old(View()), StopTry)
    {
      hide Trail;
      var ok := TransitionTo(Stopping);
      if ok {
        calls := calls.(draining := calls.draining + 1);
      } else {
        calls := calls.(rejected := calls.rejected + 1);
      }
    }

    method StopReads()
      modifies this
      ensures View() == Step(old(View()), StopRead)
    {
      if calls.rejected > 0 {
        calls := calls.(rejected := calls.rejected - 1);
        if state == Stopped || state == Completed || state == Completing {
          calls := calls.(waiting := calls.waiting + 1);
        } else {
          calls := calls.(badStops := calls.badStops + 1);
        }
      }
    }

    method ActOfBlock(op: Op)
      requires op.BlockDone? || op.BlockCancelled?
      modifies this
      ensures View() == Step(old(View()), op)
    {
      if calls.blocks > 0 {
        calls := calls.(blocks := calls.blocks - 1);
        if op.BlockDone? {
          calls := calls.(finished := calls.finished + 1);
          blocksLeft := blocksLeft - 1;
          if blocksLeft == 0 {
            calls := calls.(spawned := calls.spawned + 1, completes := calls.completes + 1);
          }
        }
      }
    }

    method ActOfCompletion(op: Op)
      requires OfCompletion(op)
      modifies this
      ensures View() == Step(old(View()), op)
    {
      hide Trail;
      match op
      case CompleteTry =>
        if calls.completes > 0 {
          var ok := TransitionTo(Completing);
          calls := calls.(completes := calls.completes - 1);
          if ok {
            calls := calls.(completing := calls.completing + 1);
          }
        }
      case CompleteDrained =>
        if calls.completing > 0 {
          var ok := TransitionTo(Completed);
          calls := calls.(completing := calls.completing - 1, completeSignals := calls.completeSignals + 1);
        }
      case CompleteSignal =>
        if calls.completeSignals > 0 {
          SignalDone();
          calls := calls.(completeSignals := calls.completeSignals - 1);
        }
    }

    method Meanwhile(ops: seq<Op>)
      modifies this
      ensures View() == After(old(View()), ops)
    {
      ghost var start := View();
      var i := 0;
      while i < |ops|
        invariant 0 <= i <= |ops| && View() == After(start, ops[..i])
      {
        Act(ops[i]);
        AfterOne(start, ops[..i], ops[i]);
        assert ops[..i + 1] == ops[..i] + [ops[i]];
        i := i + 1;
      }
      assert ops[..|ops|] == ops;
    }

    /** `between` is what other calls do between the two steps of this one. */
    method Pause(between: seq<Op>) returns (ok: bool)
      modifies this
      ensures ok == Can(old(View()), Paused)
      ensures View() == if ok then After(old(View()), [PauseTry] + between + [PauseGate]) else old(View())
    {
      ghost var start := View();
      ok := TransitionTo(Paused);
      if !ok {
        return;
      }
      calls := calls.(pausing := calls.pausing + 1);
      Meanwhile(between);
      Act(PauseGate);
      ThreeParts(start, PauseTry, between, PauseGate);
    }

    method Resume(between: seq<Op>) returns (ok: bool)
      modifies this
      ensures ok == Can(old(View()), Running)
      ensures View() == if ok then After(old(View()), [ResumeTry] + between + [ResumeGate]) else old(View())
    {
      ghost var start := View();
      ok := TransitionTo(Running);
      if !ok {
        return;
      }
      calls := calls.(resuming := calls.resuming + 1);
      Meanwhile(between);
      Act(ResumeGate);
      ThreeParts(start, ResumeTry, between, ResumeGate);
    }

    /** `between` runs before the workers are drained, or before the state is read after a
        refusal; `later` runs before `done` is signalled or awaited. */
    method Stop(between: seq<Op>, later: seq<Op>, ghost n: nat) returns (r: StopResult)
      requires Inv(View(), n)
      modifies this
      ensures Inv(View(), n)
      ensures r == Error <==> !Can(old(View()), Stopping) && After(old(View()), [StopTry] + between).state.Stopping?
      ensures r == Nil ==> done == 1 && Terminal(state)
      ensures Can(old(View()), Stopping) ==> r == Nil && state == Stopped
      ensures View() == After(old(View()), StopSteps(Can(old(View()), Stopping), r, between, later))
    {
      ghost var start := View();
      hide After, Inv;
      var ok := TransitionTo(Stopping);
      if ok {
        calls := calls.(draining := calls.draining + 1);
      } else {
        calls := calls.(rejected := calls.rejected + 1);
      }
      assert View() == Step(start, StopTry);
      StopTried(start, between, n);
      Meanwhile(between);
      ghost var mid := View();
      if !ok {
        AfterOne(start, [StopTry] + between, StopRead);
        if !(state == Stopped || state == Completed || state == Completing) {
          Act(StopRead);
          StepKeeps(mid, StopRead, n);
          return Error;
        }
        Act(StopRead);
        StepKeeps(mid, StopRead, n);
        AfterKeeps(View(), later, n);
        AfterAppend(start, [StopTry] + between + [StopRead], later);
        Meanwhile(later);
        if done == 0 {
          return AwaitsDone;
        }
        ghost var last := View();
        AfterOne(start, [StopTry] + between + [StopRead] + later, StopAwaits);
        Act(StopAwaits);
        StepKeeps(last, StopAwaits, n);
        DoneMeans(last, n);
        return Nil;
      }
      AfterOne(start, [StopTry] + between, StopDrained);
      Act(StopDrained);
      StepKeeps(mid, StopDrained, n);
      DrainedIsStopped(mid, n);
      StoppedStays(View(), later, n);
      AfterAppend(start, [StopTry] + between + [StopDrained], later);
      Meanwhile(later);
      ghost var last := View();
      AfterOne(start, [StopTry] + between + [StopDrained] + later, StopSignal);
      Act(StopSignal);
      StepKeeps(last, StopSignal, n);
      SignalledIsDone(last, n);
      return Nil;
    }

    method Complete(between: seq<Op>, later: seq<Op>, ghost n: nat)
      modifies this
      ensures View() ==
                if !Can(old(View()), Completing) || old(View()).completes == 0 then Step(old(View()), CompleteTry)
                else After(old(View()), CompleteSteps(between, later))
      ensures Inv(old(View()), n) && Can(old(View()), Completing) && old(View()).completes > 0 ==>
                Inv(View(), n) && state == Completed && done == 1
    {
      hide After, Inv;
      ghost var start := View();
      var go := LegalTransition(state, Completing) && calls.completes > 0;
      Act(CompleteTry);
      if !go {
        return;
      }
      Meanwhile(between);
      Act(CompleteDrained);
      Meanwhile(later);
      Act(CompleteSignal);
      CompleteParts(start, between, later);
      if Inv(start, n) {
        CompleteEnds(start, between, later, n);
      }
    }
  }
}
