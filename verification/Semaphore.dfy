/** The resizable counting semaphore over a mutex and a condition variable. Every step below
    is atomic: a critical section, or one notification sent after the mutex was left. */
module Semaphore {

  type Thread = nat

  /** `asleep` are on the condition's waiting list; `woken` were taken off it and have not
      re-entered the mutex; `signals` and `broadcasts` are notifications owed by calls that have
      left the mutex; `mark` is the number held when the limit was last set. */
  datatype State = State(limit: int, held: int, asleep: set<Thread>, woken: set<Thread>, holders: set<Thread>,
                         signals: nat, broadcasts: nat, mark: int)

  datatype Op =
    | Enter(t: Thread, cancelled: bool)
    | Recheck(t: Thread, cancelled: bool)
    | Release(t: Thread)
    | Signal(t: Thread)
    | IdleSignal
    | SetLimit(n: int)
    | Broadcast
    | CancelBroadcast

  function NewState(limit: int): State {
    State(limit, 0, {}, {}, {}, 0, 0, 0)
  }

  predicate Enabled(s: State, op: Op) {
    match op
    case Enter(t, _) => t !in s.asleep && t !in s.woken && t !in s.holders
    case Recheck(t, _) => t in s.woken
    case Release(_) => true
    case Signal(t) => s.signals > 0 && t in s.asleep
    case IdleSignal => s.signals > 0 && s.asleep == {}
    case SetLimit(_) => true
    case Broadcast => s.broadcasts > 0
    case CancelBroadcast => true
  }

  /** One pass of the waiting loop by a thread inside the mutex. */
  function Pass(s: State, t: Thread, cancelled: bool): State {
    if s.held < s.limit then s.(held := s.held + 1, holders := s.holders + {t})
    else if cancelled then s
    else s.(asleep := s.asleep + {t})
  }

  function Step(s: State, op: Op): State
    requires Enabled(s, op)
  {
    match op
    case Enter(t, cancelled) => Pass(s, t, cancelled)
    case Recheck(t, cancelled) => Pass(s.(woken := s.woken - {t}), t, cancelled)
    case Release(t) =>
      s.(held := if s.held > 0 then s.held - 1 else s.held, holders := s.holders - {t}, signals := s.signals + 1)
    case Signal(t) => s.(asleep := s.asleep - {t}, woken := s.woken + {t}, signals := s.signals - 1)
    case IdleSignal => s.(signals := s.signals - 1)
    case SetLimit(n) => s.(limit := n, broadcasts := s.broadcasts + 1, mark := s.held)
    case Broadcast => s.(asleep := {}, woken := s.woken + s.asleep, broadcasts := s.broadcasts - 1)
    case CancelBroadcast => s.(asleep := {}, woken := s.woken + s.asleep)
  }

  ghost predicate Legal(s: State, ops: seq<Op>)
    decreases |ops|
  {
    ops == [] || (Enabled(s, ops[0]) && Legal(Step(s, ops[0]), ops[1..]))
  }

  ghost function Run(s: State, ops: seq<Op>): State
    requires Legal(s, ops)
    decreases |ops|
  {
    if ops == [] then s else Run(Step(s, ops[0]), ops[1..])
  }

  function Max(a: int, b: int): int {
    if a <= b then b else a
  }

  // ---------- safety ----------

  /** Somebody asleep below the limit is owed a broadcast, or as many wake-ups are on their way
      as there are free permits. */
  predicate NoLostWakeup(s: State) {
    s.asleep != {} && s.held < s.limit ==> s.broadcasts > 0 || s.signals + |s.woken| >= s.limit - s.held
  }

  predicate Inv(s: State) {
    && 0 <= s.held <= |s.holders|
    && s.held <= Max(s.limit, s.mark)
    && s.asleep !! s.woken !! s.holders
    && NoLostWakeup(s)
  }

  lemma PassKeeps(s: State, t: Thread, cancelled: bool)
    requires 0 <= s.held <= |s.holders| && s.held <= Max(s.limit, s.mark) && s.asleep !! s.woken !! s.holders
    requires t !in s.asleep && t !in s.woken && t !in s.holders
    requires s.asleep != {} && s.held < s.limit ==>
               s.broadcasts > 0 || s.signals + |s.woken| + 1 >= s.limit - s.held
    ensures Inv(Pass(s, t, cancelled))
  {
    More(s.holders, t);
  }

  lemma EnterKeeps(s: State, t: Thread, cancelled: bool)
    requires Inv(s) && Enabled(s, Enter(t, cancelled))
    ensures Inv(Step(s, Enter(t, cancelled)))
  {
    PassKeeps(s, t, cancelled);
  }

  lemma RecheckKeeps(s: State, t: Thread, cancelled: bool)
    requires Inv(s) && Enabled(s, Recheck(t, cancelled))
    ensures Inv(Step(s, Recheck(t, cancelled)))
  {
    Fewer(s.woken, t);
    PassKeeps(s.(woken := s.woken - {t}), t, cancelled);
  }

  lemma ReleaseKeeps(s: State, t: Thread)
    requires Inv(s) && Enabled(s, Release(t))
    ensures Inv(Step(s, Release(t)))
  {
    if t in s.holders {
      Fewer(s.holders, t);
    } else {
      assert s.holders - {t} == s.holders;
    }
  }

  lemma SignalKeeps(s: State, t: Thread)
    requires Inv(s) && Enabled(s, Signal(t))
    ensures Inv(Step(s, Signal(t)))
  {
    More(s.woken, t);
  }

  lemma WakeKeeps(s: State, op: Op)
    requires Inv(s) && Enabled(s, op) && (op.Broadcast? || op.CancelBroadcast? || op.IdleSignal? || op.SetLimit?)
    ensures Inv(Step(s, op))
  {
  }

  lemma StepKeeps(s: State, op: Op)
    requires Inv(s) && Enabled(s, op)
    ensures Inv(Step(s, op))
  {
    hide Inv, Step, Enabled;
    match op
    case Enter(t, cancelled) => EnterKeeps(s, t, cancelled);
    case Recheck(t, cancelled) => RecheckKeeps(s, t, cancelled);
    case Release(t) => ReleaseKeeps(s, t);
    case Signal(t) => SignalKeeps(s, t);
    case _ => WakeKeeps(s, op);
  }

  /** A release by a thread that holds a permit, as the worker's deferred release is. */
  predicate Proper(s: State, op: Op) {
    op.Release? ==> op.t in s.holders
  }

  ghost predicate AllProper(s: State, ops: seq<Op>)
    requires Legal(s, ops)
    decreases |ops|
  {
    ops != [] ==> Proper(s, ops[0]) && AllProper(Step(s, ops[0]), ops[1..])
  }

  /** The count of permits is exact after a step exactly when it was and the step is not a stray
      release, unless the two differences cancel: a stray release that finds the count already
      at zero changes nothing. */
  lemma ExactStep(s: State, op: Op)
    requires Inv(s) && Enabled(s, op) && s.held == |s.holders|
    ensures Step(s, op).held == |Step(s, op).holders| <==> Proper(s, op) || s.held == 0
  {
    match op
    case Enter(t, _) => More(s.holders, t);
    case Recheck(t, _) => More(s.holders, t);
    case Release(t) =>
      if t in s.holders {
        Fewer(s.holders, t);
      } else {
        assert s.holders - {t} == s.holders;
      }
    case _ =>
  }

  /** In every run from a new semaphore: no wake-up is lost, no more is counted than the threads
      between acquire and release, exactly those when every release is by one of them, and the
      count exceeds the limit only by what was already out when the limit was last set. */
  lemma {:induction false} EveryRun(s: State, ops: seq<Op>)
    requires Inv(s) && Legal(s, ops)
    ensures Inv(Run(s, ops))
    ensures s.held == |s.holders| && AllProper(s, ops) ==> Run(s, ops).held == |Run(s, ops).holders|
    decreases |ops|
  {
    if ops != [] {
      StepKeeps(s, ops[0]);
      if s.held == |s.holders| {
        ExactStep(s, ops[0]);
      }
      hide Inv, Step, Enabled, Proper;
      EveryRun(Step(s, ops[0]), ops[1..]);
    }
  }

  lemma NewRun(limit: int, ops: seq<Op>)
    requires Legal(NewState(limit), ops)
    ensures Inv(Run(NewState(limit), ops))
    ensures AllProper(NewState(limit), ops) ==> Run(NewState(limit), ops).held == |Run(NewState(limit), ops).holders|
  {
    EveryRun(NewState(limit), ops);
  }

  // ---------- the wake-ups settle ----------

  /** The steps that only carry out what was already promised. */
  predicate Internal(op: Op) {
    op.Recheck? || op.Signal? || op.IdleSignal? || op.Broadcast?
  }

  ghost predicate AllInternal(ops: seq<Op>) {
    forall i :: 0 <= i < |ops| ==> Internal(ops[i])
  }

  predicate NoneCancelled(ops: seq<Op>) {
    forall i :: 0 <= i < |ops| ==> ops[i].Recheck? ==> !ops[i].cancelled
  }

  predicate Quiet(s: State) {
    s.broadcasts == 0 && s.signals == 0 && s.woken == {}
  }

  lemma QuietMeansNothingInternal(s: State)
    ensures Quiet(s) <==> forall op :: Internal(op) ==> !Enabled(s, op)
  {
    if !Quiet(s) {
      if s.broadcasts > 0 {
        assert Enabled(s, Broadcast);
      } else if s.woken != {} {
        var t :| t in s.woken;
        assert Enabled(s, Recheck(t, false));
      } else if s.asleep == {} {
        assert Enabled(s, IdleSignal);
      } else {
        var t :| t in s.asleep;
        assert Enabled(s, Signal(t));
      }
    }
  }

  function Waiting(s: State): nat {
    |s.asleep| + |s.woken|
  }

  function Product(a: nat, b: nat): nat {
    a * b
  }

  /** How many internal steps can follow. */
  function Budget(s: State): nat {
    Product(s.broadcasts, Waiting(s) + 1) + 2 * s.signals + |s.woken|
  }

  /** One internal step uses up some budget, keeps the limit, and without a cancellation
      loses no waiter except to a permit. */
  ghost predicate Spends(s: State, u: State, cancelled: bool) {
    && Budget(u) < Budget(s) && u.limit == s.limit && u.held <= Max(s.limit, s.held)
    && (!cancelled ==> u.held + Waiting(u) == s.held + Waiting(s))
  }

  lemma InternalStep(s: State, op: Op)
    requires Inv(s) && Enabled(s, op) && Internal(op)
    ensures Spends(s, Step(s, op), op.Recheck? && op.cancelled)
  {
    match op
    case Recheck(t, cancelled) => RecheckStep(s, t, cancelled);
    case Signal(t) => SignalStep(s, t);
    case IdleSignal =>
    case Broadcast => BroadcastStep(s);
  }

  lemma SignalStep(s: State, t: Thread)
    requires Inv(s) && Enabled(s, Signal(t))
    ensures Spends(s, Step(s, Signal(t)), false)
  {
    hide Product;
    Fewer(s.asleep, t);
    More(s.woken, t);
  }

  lemma BroadcastStep(s: State)
    requires Inv(s) && Enabled(s, Broadcast)
    ensures Spends(s, Step(s, Broadcast), false)
  {
    hide Product;
    Disjoint(s.woken, s.asleep);
    OneLess(s.broadcasts, Waiting(s) + 1);
  }

  lemma RecheckCounts(s: State, t: Thread, cancelled: bool)
    requires Inv(s) && Enabled(s, Recheck(t, cancelled))
    ensures var u := Step(s, Recheck(t, cancelled));
            && u.broadcasts == s.broadcasts && u.signals == s.signals && u.limit == s.limit
            && |u.woken| == |s.woken| - 1 && Waiting(u) <= Waiting(s) && u.held <= Max(s.limit, s.held)
            && (!cancelled ==> u.held + Waiting(u) == s.held + Waiting(s))
  {
    Fewer(s.woken, t);
    More(s.asleep, t);
  }

  lemma RecheckStep(s: State, t: Thread, cancelled: bool)
    requires Inv(s) && Enabled(s, Recheck(t, cancelled))
    ensures Spends(s, Step(s, Recheck(t, cancelled)), cancelled)
  {
    hide Product, Step, Inv, Enabled, Waiting;
    RecheckCounts(s, t, cancelled);
    Times(s.broadcasts, Waiting(Step(s, Recheck(t, cancelled))) + 1, Waiting(s) + 1);
  }

  lemma Fewer(a: set<Thread>, t: Thread)
    requires t in a
    ensures |a - {t}| == |a| - 1
  {
  }

  lemma More(a: set<Thread>, t: Thread)
    requires t !in a
    ensures |a + {t}| == |a| + 1
  {
  }

  lemma Disjoint(a: set<Thread>, b: set<Thread>)
    requires a !! b
    ensures |a + b| == |a| + |b|
  {
  }

  lemma Times(a: nat, b: nat, c: nat)
    requires b <= c
    ensures Product(a, b) <= Product(a, c)
  {
  }

  lemma OneLess(a: nat, b: nat)
    requires a > 0
    ensures Product(a - 1, b) == Product(a, b) - b
  {
  }

  /** However the scheduler orders the wake-ups already promised, they are used up after at
      most `Budget` steps. */
  lemma {:induction false} Settles(s: State, ops: seq<Op>)
    requires Inv(s) && Legal(s, ops) && AllInternal(ops)
    ensures |ops| <= Budget(s)
    ensures Run(s, ops).limit == s.limit && Run(s, ops).held <= Max(s.limit, s.held)
    ensures NoneCancelled(ops) ==> Run(s, ops).held + Waiting(Run(s, ops)) == s.held + Waiting(s)
    decreases |ops|
  {
    if ops != [] {
      InternalStep(s, ops[0]);
      StepKeeps(s, ops[0]);
      Settles(Step(s, ops[0]), ops[1..]);
    }
  }

  /** Once they are used up, nobody sleeps beside a free permit; and without cancellations the
      waiters got exactly the permits that were free, as far as there were waiters. */
  lemma SettledServesAll(s: State, ops: seq<Op>)
    requires Inv(s) && Legal(s, ops) && AllInternal(ops) && Quiet(Run(s, ops))
    ensures var u := Run(s, ops); u.asleep == {} || u.held >= u.limit
    ensures NoneCancelled(ops) ==>
              Run(s, ops).held == if s.held >= s.limit then s.held
                                  else if s.held + Waiting(s) <= s.limit then s.held + Waiting(s) else s.limit
  {
    EveryRun(s, ops);
    Settles(s, ops);
    HeldNeverFalls(s, ops);
  }

  lemma {:induction false} HeldNeverFalls(s: State, ops: seq<Op>)
    requires Legal(s, ops) && AllInternal(ops)
    ensures Run(s, ops).held >= s.held
    decreases |ops|
  {
    if ops != [] {
      HeldNeverFalls(Step(s, ops[0]), ops[1..]);
    }
  }

  // ---------- acquire, from call to return ----------

  lemma {:induction false} RunAppend(s: State, a: seq<Op>, b: seq<Op>)
    requires Legal(s, a) && Legal(Run(s, a), b)
    ensures Legal(s, a + b) && Run(s, a + b) == Run(Run(s, a), b)
    decreases |a|
  {
    if a == [] {
      assert a + b == b;
    } else {
      assert (a + b)[1..] == a[1..] + b && (a + b)[0] == a[0];
      RunAppend(Step(s, a[0]), a[1..], b);
    }
  }

  lemma OneFirst(s: State, op: Op, ops: seq<Op>)
    requires Enabled(s, op) && Legal(Step(s, op), ops)
    ensures Legal(s, [op] + ops) && Run(s, [op] + ops) == Run(Step(s, op), ops)
  {
    assert ([op] + ops)[1..] == ops;
  }

  /** Thread `t` itself moves. */
  predicate By(op: Op, t: Thread) {
    (op.Enter? || op.Recheck? || op.Release?) && op.t == t
  }

  predicate Others(ops: seq<Op>, t: Thread) {
    forall i :: 0 <= i < |ops| ==> !By(ops[i], t)
  }

  /** What a blocked `acquire` meets: the context as it sees it on one pass of its loop, and
      what other threads do while it then sleeps. */
  datatype Round = Round(cancelled: bool, others: seq<Op>)

  datatype Outcome = Granted | Refused | StillWaiting

  predicate Idle(s: State, t: Thread) {
    t !in s.asleep && t !in s.woken && t !in s.holders
  }

  predicate InLine(s: State, t: Thread) {
    t in s.asleep || t in s.woken
  }

  /** Steps in order, those that cannot happen skipped. */
  function Play(s: State, ops: seq<Op>): State
    decreases |ops|
  {
    if ops == [] then s else Play(if Enabled(s, ops[0]) then Step(s, ops[0]) else s, ops[1..])
  }

  /** What `acquire` comes to from a test of the limit on, with `t` on no list. When the rounds
      run out the thread is still waiting. */
  function Wait(s: State, t: Thread, rounds: seq<Round>): (State, Outcome)
    requires rounds != []
    decreases |rounds|
  {
    if s.held < s.limit then (s.(held := s.held + 1, holders := s.holders + {t}), Granted)
    else if rounds[0].cancelled then (s, Refused)
    else
      var u := Play(s.(asleep := s.asleep + {t}), rounds[0].others);
      if |rounds| == 1 || t !in u.woken then (u, StillWaiting)
      else Wait(u.(woken := u.woken - {t}), t, rounds[1..])
  }

  /** A thread in line is moved along the line by others, never out of it. */
  lemma StaysInLine(s: State, op: Op, t: Thread)
    requires Inv(s) && Enabled(s, op) && InLine(s, t) && !By(op, t)
    ensures Inv(Step(s, op)) && InLine(Step(s, op), t)
  {
    StepKeeps(s, op);
  }

  lemma {:induction false} PlayIsLegal(s: State, ops: seq<Op>, t: Thread) returns (trace: seq<Op>)
    requires Inv(s) && InLine(s, t) && Others(ops, t)
    ensures Legal(s, trace) && Run(s, trace) == Play(s, ops)
    ensures Inv(Play(s, ops)) && InLine(Play(s, ops), t)
    decreases |ops|
  {
    hide Inv, InLine, Step, Enabled;
    if ops == [] {
      trace := [];
    } else if Enabled(s, ops[0]) {
      StaysInLine(s, ops[0], t);
      var more := PlayIsLegal(Step(s, ops[0]), ops[1..], t);
      OneFirst(s, ops[0], more);
      trace := [ops[0]] + more;
    } else {
      trace := PlayIsLegal(s, ops[1..], t);
    }
  }

  /** Thread `t` inside the mutex, no longer on any list, about to test the limit by `op`. */
  predicate AtTest(s: State, here: State, op: Op, t: Thread, cancelled: bool) {
    && (op == Enter(t, cancelled) || op == Recheck(t, cancelled))
    && Enabled(here, op) && s == here.(woken := here.woken - {t})
    && t !in here.asleep && t !in here.holders
  }

  lemma TestIsStep(s: State, here: State, op: Op, t: Thread, cancelled: bool)
    requires Inv(here) && AtTest(s, here, op, t, cancelled)
    ensures Enabled(here, op) && Step(here, op) == Pass(s, t, cancelled) && Inv(Step(here, op)) && Idle(s, t)
  {
    StepKeeps(here, op);
    if op.Enter? {
      assert here.woken - {t} == here.woken;
    }
  }

  lemma WokenAtTest(here: State, t: Thread, cancelled: bool)
    requires Inv(here) && t in here.woken
    ensures AtTest(here.(woken := here.woken - {t}), here, Recheck(t, cancelled), t, cancelled)
  {
  }

  /** Where an outcome leaves the thread. */
  predicate Leaves(u: State, t: Thread, out: Outcome) {
    match out
    case Granted => t in u.holders
    case Refused => Idle(u, t)
    case StillWaiting => InLine(u, t)
  }

  lemma {:induction false} WaitIsLegal(s: State, here: State, op: Op, t: Thread, rounds: seq<Round>)
    returns (trace: seq<Op>)
    requires rounds != [] && Inv(here) && AtTest(s, here, op, t, rounds[0].cancelled)
    requires forall i :: 0 <= i < |rounds| ==> Others(rounds[i].others, t)
    ensures var (u, out) := Wait(s, t, rounds);
            Legal(here, trace) && Run(here, trace) == u && Inv(u) && Leaves(u, t, out)
    decreases |rounds|
  {
    hide Inv, AtTest, Step, Enabled, Others, Play;
    TestIsStep(s, here, op, t, rounds[0].cancelled);
    var passed := Step(here, op);
    OneFirst(here, op, []);
    trace := [op] + [];
    if s.held >= s.limit && !rounds[0].cancelled {
      var more := PlayIsLegal(passed, rounds[0].others, t);
      var u := Play(passed, rounds[0].others);
      if |rounds| > 1 && t in u.woken {
        WokenAtTest(u, t, rounds[1].cancelled);
        var rest := WaitIsLegal(u.(woken := u.woken - {t}), u, Recheck(t, rounds[1].cancelled), t, rounds[1..]);
        RunAppend(passed, more, rest);
        more := more + rest;
      }
      OneFirst(here, op, more);
      trace := [op] + more;
    }
  }

  /** Whatever other threads do between its passes, a call of `acquire` is a legal run of the
      semaphore; it returns nil holding a permit, an error holding none and waiting on no list,
      or is still in line. */
  lemma AcquireOutcome(s: State, t: Thread, rounds: seq<Round>)
    requires rounds != [] && Inv(s) && Idle(s, t)
    requires forall i :: 0 <= i < |rounds| ==> Others(rounds[i].others, t)
    ensures var (u, out) := Wait(s, t, rounds);
            && Inv(u) && Leaves(u, t, out)
            && exists trace :: Legal(s, trace) && Run(s, trace) == u
  {
    assert s.woken - {t} == s.woken;
    var trace := WaitIsLegal(s, s, Enter(t, rounds[0].cancelled), t, rounds);
  }

  // ---------- the code ----------

  lemma PlayOne(s: State, ops: seq<Op>, i: nat)
    requires i < |ops|
    ensures Play(s, ops[i..]) == Play(if Enabled(s, ops[i]) then Step(s, ops[i]) else s, ops[i + 1..])
  {
    assert ops[i..][0] == ops[i] && ops[i..][1..] == ops[i + 1..];
  }

  lemma WaitOne(s: State, t: Thread, rounds: seq<Round>, i: nat)
    requires i < |rounds|
    ensures Wait(s, t, rounds[i..]) ==
              if s.held < s.limit then (s.(held := s.held + 1, holders := s.holders + {t}), Granted)
              else if rounds[i].cancelled then (s, Refused)
              else
                var u := Play(s.(asleep := s.asleep + {t}), rounds[i].others);
                if i + 1 == |rounds| || t !in u.woken then (u, StillWaiting)
                else Wait(u.(woken := u.woken - {t}), t, rounds[i + 1..])
  {
    hide Play;
    assert rounds[i..][0] == rounds[i] && rounds[i..][1..] == rounds[i + 1..];
  }

  class Semaphore {
    var limit: int
    var held: int
    // The runtime's side: who waits, who holds (the code keeps only their number), what is owed.
    var holders: set<Thread>
    var asleep: set<Thread>
    var woken: set<Thread>
    var signals: nat
    var broadcasts: nat
    ghost var mark: int

    ghost function View(): State
      reads this
    {
      State(limit, held, asleep, woken, holders, signals, broadcasts, mark)
    }

    constructor (limit: int)
      ensures View() == NewState(limit)
    {
      this.limit, held := limit, 0;
      asleep, woken, holders, signals, broadcasts, mark := {}, {}, {}, 0, 0, 0;
    }

    method Release(t: Thread)
      modifies this
      ensures View() == Step(old(View()), Op.Release(t))
    {
      if held > 0 {
        held := held - 1;
      }
      holders := holders - {t};
      signals := signals + 1;
    }

    method SetLimit(n: int)
      modifies this
      ensures View() == Step(old(View()), Op.SetLimit(n))
    {
      limit := n;
      mark := held;
      broadcasts := broadcasts + 1;
    }

    /** A signal owed by some release reaches the waiting list. */
    method Deliver(t: Thread)
      requires signals > 0 && (asleep == {} || t in asleep)
      modifies this
      ensures View() == Step(old(View()), if old(asleep) == {} then IdleSignal else Signal(t))
    {
      if t in asleep {
        asleep, woken := asleep - {t}, woken + {t};
      }
      signals := signals - 1;
    }

    method WakeAll(owed: bool)
      requires owed ==> broadcasts > 0
      modifies this
      ensures View() == Step(old(View()), if owed then Broadcast else CancelBroadcast)
    {
      asleep, woken := {}, woken + asleep;
      if owed {
        broadcasts := broadcasts - 1;
      }
    }

    /** Another thread's pass through the waiting loop. */
    method OtherPass(t: Thread, cancelled: bool)
      modifies this
      ensures View() == Pass(old(View()), t, cancelled)
    {
      if held < limit {
        held, holders := held + 1, holders + {t};
      } else if !cancelled {
        asleep := asleep + {t};
      }
    }

    /** A step that cannot happen is skipped. */
    method OneStep(op: Op) returns (moved: bool)
      modifies this
      ensures moved == Enabled(old(View()), op)
      ensures View() == if moved then Step(old(View()), op) else old(View())
    {
      moved := Enabled(State(limit, held, asleep, woken, holders, signals, broadcasts, 0), op);
      if moved {
        match op
        case Enter(t, cancelled) => OtherPass(t, cancelled);
        case Recheck(t, cancelled) =>
          woken := woken - {t};
          OtherPass(t, cancelled);
        case Release(t) => Release(t);
        case Signal(t) => Deliver(t);
        case IdleSignal => Deliver(0);
        case SetLimit(n) => SetLimit(n);
        case Broadcast => WakeAll(true);
        case CancelBroadcast => WakeAll(false);
      }
    }

    /** Other threads' steps. */
    method Meanwhile(ops: seq<Op>)
      modifies this
      ensures View() == Play(old(View()), ops)
    {
      hide Step, Enabled;
      ghost var start := View();
      var i := 0;
      assert ops[0..] == ops;
      while i < |ops|
        invariant 0 <= i <= |ops|
        invariant Play(start, ops) == Play(View(), ops[i..])
      {
        PlayOne(View(), ops, i);
        var moved := OneStep(ops[i]);
        i := i + 1;
      }
    }

    /** Each pass finds a permit free, or finds the context done, or sleeps until woken.
        `rounds` is what the thread meets, pass by pass. */
    method Acquire(t: Thread, done: bool, rounds: seq<Round>) returns (out: Outcome)
      requires rounds != []
      modifies this
      ensures (View(), out) == if done then (old(View()), Refused) else Wait(old(View()), t, rounds)
    {
      hide Play, Wait;
      if done {
        return Refused;
      }
      ghost var start := View();
      var i := 0;
      assert rounds[0..] == rounds;
      while held >= limit
        invariant 0 <= i < |rounds|
        invariant Wait(start, t, rounds) == Wait(View(), t, rounds[i..])
        decreases |rounds| - i
      {
        WaitOne(View(), t, rounds, i);
        if rounds[i].cancelled {
          return Refused;
        }
        asleep := asleep + {t};
        Meanwhile(rounds[i].others);
        i := i + 1;
        if i == |rounds| || t !in woken {
          return StillWaiting;
        }
        woken := woken - {t};
      }
      WaitOne(View(), t, rounds, i);
      held, holders := held + 1, holders + {t};
      return Granted;
    }
  }
}
