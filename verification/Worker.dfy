/** One virtual user: its loop, one action through breaker, limiter, semaphore and routing, and
    the handler's retries. What the worker does is kept as a log of events. */
module Worker {
  import opened Basics
  import opened CircuitBreaking

  datatype Outcome = Success | Failure | Skipped | Cancelled | Panicked | Reconnect

  /** In the source's numeric order: Transient is the zero value. */
  datatype Class = Transient | Permanent | Config | Safety | Unknown

  datatype Result = Result(protocol: string, action: string, target: string, outcome: Outcome,
                           errClass: Class, errCode: string, bytesIn: int, bytesOut: int)

  datatype Observation = NoObservation | Seen(id: int)

  datatype Planned = Planned(protocol: string, verb: string, target: string)

  /** What one call of the handler comes to; an error is given by its class. */
  datatype Attempt = Panics | Returns(res: Result, obs: Observation, err: Option<Class>)

  datatype Admission = Granted | SafetyRefused | OtherError

  /** What an action meets: what other workers did to the breakers and whether they latched the
      tripwire since the last one, the clock at the breaker, whether the context is done, what the
      limiter's caps say, the semaphore's reply, the registry's, the handler and the backoff sleep
      by attempt, what others did to the breakers meanwhile, and the clock at the end. */
  datatype World = World(before: seq<BreakerOp>, latched: bool, now: int, done: bool, admission: Admission,
                         permit: bool, routed: bool, handler: nat -> Attempt, slept: nat -> bool,
                         during: seq<BreakerOp>, end: int)

  /** The limiter looks at the context first, then at the tripwire, then at its caps. */
  function Reply(w: World, tripped: bool): Admission {
    if w.done then OtherError else if tripped then SafetyRefused else w.admission
  }

  /** The same world with the limiter's reply in place of what its caps say. */
  function Met(w: World, tripped: bool): World {
    w.(admission := Reply(w, tripped))
  }

  /** What one turn of the loop meets. */
  datatype Turn =
    | NextFails
    | NextDone
    | NextStep(gateOpen: bool, slept: bool, action: Option<(Planned, World)>)

  datatype Event =
    | ReservationTaken | ReservationReleased | PermitTaken | PermitReleased
    | Called(attempt: nat) | Reconciled(bytes: int)
    | Recorded(res: Result) | Observed(res: Result, obs: Observation) | Tripped

  // ---------- results ----------

  function BaseResult(pa: Planned): Result {
    Result(pa.protocol, pa.verb, pa.target, Success, Transient, "", 0, 0)
  }

  function SkipResult(pa: Planned): Result {
    BaseResult(pa).(outcome := Skipped)
  }

  function CancelResult(pa: Planned): Result {
    BaseResult(pa).(outcome := Cancelled)
  }

  function SafetyResult(pa: Planned): Result {
    BaseResult(pa).(outcome := Failure, errClass := Safety, errCode := "safety.cap")
  }

  function PanicResult(pa: Planned): Result {
    BaseResult(pa).(outcome := Panicked, errClass := Unknown, errCode := "panic")
  }

  function FailureResult(pa: Planned, class_: Class, code: string): Result {
    BaseResult(pa).(outcome := Failure, errClass := class_, errCode := code)
  }

  /** Only a class of zero, which is Transient, is replaced. */
  function FailedResult(pa: Planned, res: Result, class_: Class): Result {
    var r := if res.protocol == "" then BaseResult(pa) else res;
    r.(outcome := Failure, errClass := if r.errClass.Transient? then class_ else r.errClass)
  }

  // ---------- retries ----------

  predicate Succeeds(a: Attempt) {
    a.Returns? && a.err.None? && a.res.outcome.Success?
  }

  function Classify(res: Result, err: Option<Class>): Class {
    match err
    case Some(c) => c
    case None => if !res.outcome.Success? then res.errClass else Unknown
  }

  predicate Retryable(a: Attempt) {
    a.Returns? && !Succeeds(a) && (Classify(a.res, a.err).Transient? || Classify(a.res, a.err).Unknown?)
  }

  /** Attempt `i` is followed by another. */
  predicate GoesOn(w: World, maxRetries: int, i: nat) {
    Retryable(w.handler(i)) && i < maxRetries && w.slept(i)
  }

  /** The handler is called exactly `calls` times. */
  ghost predicate CallsMade(w: World, maxRetries: int, calls: nat) {
    && calls > 0 && (forall i: nat :: i < calls - 1 ==> GoesOn(w, maxRetries, i))
    && !GoesOn(w, maxRetries, calls - 1)
  }

  function MostCalls(maxRetries: int): nat {
    if maxRetries < 0 then 1 else maxRetries + 1
  }

  lemma CallsBounded(w: World, maxRetries: int, calls: nat)
    requires CallsMade(w, maxRetries, calls)
    ensures calls <= MostCalls(maxRetries)
  {
    if calls >= 2 {
      var last: nat := calls - 2;
      assert GoesOn(w, maxRetries, last);
    }
  }

  /** A failure of class Transient or Unknown: of its error or, without one, of its result. */
  predicate Temporary(a: Attempt) {
    && a.Returns?
    && if a.err.Some? then a.err.value.Transient? || a.err.value.Unknown?
       else !a.res.outcome.Success? && (a.res.errClass.Transient? || a.res.errClass.Unknown?)
  }

  /** A panic, a success, or a failure of class Permanent, Config or Safety. */
  predicate Final(a: Attempt) {
    || a.Panics?
    || (a.err.None? && a.res.outcome.Success?)
    || (a.err.Some? && (a.err.value.Permanent? || a.err.value.Config? || a.err.value.Safety?))
    || (a.err.None? && (a.res.errClass.Permanent? || a.res.errClass.Config? || a.res.errClass.Safety?))
  }

  lemma EitherFinalOrTemporary(a: Attempt)
    ensures Final(a) != Temporary(a)
    ensures Retryable(a) <==> Temporary(a)
  {
  }

  /** What the calls made say about the attempts: each but the last failed temporarily, had a
      retry left and slept its backoff out; the last is final, was the last allowed, or had its
      sleep cut short. */
  lemma RetriesMean(w: World, maxRetries: int, calls: nat)
    requires CallsMade(w, maxRetries, calls)
    ensures forall i: nat | i < calls - 1 :: Temporary(w.handler(i)) && w.slept(i)
    ensures calls == 1 || calls - 1 <= maxRetries
    ensures Final(w.handler(calls - 1)) || calls - 1 >= maxRetries || !w.slept(calls - 1)
  {
    CallsBounded(w, maxRetries, calls);
    hide Temporary, Final, Retryable;
    EitherFinalOrTemporary(w.handler(calls - 1));
    forall i: nat | i < calls - 1
      ensures Temporary(w.handler(i)) && w.slept(i)
    {
      assert GoesOn(w, maxRetries, i);
      EitherFinalOrTemporary(w.handler(i));
    }
  }

  /** A handler that keeps failing temporarily, its sleeps undisturbed, is called once and then
      once for every retry. */
  lemma KeepsFailing(w: World, maxRetries: int, calls: nat)
    requires CallsMade(w, maxRetries, calls)
    requires forall i: nat | i < maxRetries :: Temporary(w.handler(i)) && w.slept(i)
    ensures calls == if maxRetries < 0 then 1 else maxRetries + 1
  {
    hide Temporary, Final;
    CallsBounded(w, maxRetries, calls);
    RetriesMean(w, maxRetries, calls);
    EitherFinalOrTemporary(w.handler(calls - 1));
  }

  /** The number of calls, counted from attempt `i`. */
  function CallCount(w: World, maxRetries: int, i: nat): (calls: nat)
    ensures calls > i
    decreases if i < maxRetries then maxRetries - i else 0
  {
    if GoesOn(w, maxRetries, i) then CallCount(w, maxRetries, i + 1) else i + 1
  }

  lemma {:induction false} CallCountIsLast(w: World, maxRetries: int, i: nat, calls: nat)
    requires CallsMade(w, maxRetries, calls) && i < calls
    ensures CallCount(w, maxRetries, i) == calls
    decreases calls - i
  {
    if i < calls - 1 {
      CallCountIsLast(w, maxRetries, i + 1, calls);
    }
  }

  /** What the last attempt is turned into; `more` says retries were left. */
  function Verdict(pa: Planned, a: Attempt, more: bool): (Result, Observation) {
    match a
    case Panics => (PanicResult(pa), NoObservation)
    case Returns(res, obs, err) =>
      if Succeeds(a) then (res, obs)
      else if Retryable(a) && more then (CancelResult(pa), obs)
      else (FailedResult(pa, res, Classify(res, err)), obs)
  }

  /** A handler that reports a reconnect, a skip or a cancellation of its own is recorded as a
      failure: out of the retry loop come only successes, failures, panics and, when the
      backoff sleep is cut short, cancellations. */
  lemma VerdictOutcomes(pa: Planned, a: Attempt, more: bool)
    ensures var o := Verdict(pa, a, more).0.outcome;
            && (o.Success? <==> Succeeds(a))
            && (o.Panicked? <==> a.Panics?)
            && (o.Cancelled? <==> Retryable(a) && more)
            && (o.Failure? <==> a.Returns? && !Succeeds(a) && !(Retryable(a) && more))
  {
  }

  // ---------- the log ----------

  /** What the worker holds: nothing, a reservation, a reservation and a permit with the next
      attempt number, or the same after reconciling; or the order was broken. */
  datatype Holding = Nothing | Reservation | Both(next: nat) | Settled | Broken

  /** Handlers run only under a reservation and a permit, are numbered from zero and never
      exceed the retry limit; what was taken last is given back first, once; recording,
      observing and tripping happen with nothing held. */
  function Moves(h: Holding, e: Event, maxRetries: int): Holding {
    match e
    case ReservationTaken => if h.Nothing? then Reservation else Broken
    case PermitTaken => if h.Reservation? then Both(0) else Broken
    case Called(i) => if h.Both? && i == h.next && i < MostCalls(maxRetries) then Both(h.next + 1) else Broken
    case Reconciled(_) => if h.Both? && h.next > 0 then Settled else Broken
    case PermitReleased => if h.Settled? || h == Both(0) then Reservation else Broken
    case ReservationReleased => if h.Reservation? then Nothing else Broken
    case _ => if h.Nothing? then Nothing else Broken
  }

  function Scan(h: Holding, log: seq<Event>, maxRetries: int): Holding
    decreases |log|
  {
    if log == [] then h else Scan(Moves(h, log[0], maxRetries), log[1..], maxRetries)
  }

  lemma {:induction false} ScanAppend(h: Holding, a: seq<Event>, b: seq<Event>, maxRetries: int)
    ensures Scan(h, a + b, maxRetries) == Scan(Scan(h, a, maxRetries), b, maxRetries)
    decreases |a|
  {
    if a == [] {
      assert a + b == b;
    } else {
      assert (a + b)[1..] == a[1..] + b && (a + b)[0] == a[0];
      ScanAppend(Moves(h, a[0], maxRetries), a[1..], b, maxRetries);
    }
  }

  lemma ScanOne(h: Holding, log: seq<Event>, e: Event, maxRetries: int)
    ensures Scan(h, log + [e], maxRetries) == Moves(Scan(h, log, maxRetries), e, maxRetries)
  {
    ScanAppend(h, log, [e], maxRetries);
    assert [e][1..] == [];
  }

  function Calls(n: nat): seq<Event> {
    if n == 0 then [] else Calls(n - 1) + [Called(n - 1)]
  }

  lemma {:induction false} ScanCalls(n: nat, maxRetries: int)
    requires n <= MostCalls(maxRetries)
    ensures Scan(Both(0), Calls(n), maxRetries) == Both(n)
  {
    if n > 0 {
      ScanCalls(n - 1, maxRetries);
      ScanOne(Both(0), Calls(n - 1), Called(n - 1), maxRetries);
    }
  }

  function RecordedIn(log: seq<Event>): seq<Result> {
    if log == [] then []
    else
      var e := log[|log| - 1];
      RecordedIn(log[..|log| - 1]) + if e.Recorded? then [e.res] else []
  }

  function ObservedIn(log: seq<Event>): seq<Result> {
    if log == [] then []
    else
      var e := log[|log| - 1];
      ObservedIn(log[..|log| - 1]) + if e.Observed? then [e.res] else []
  }

  /** Events that record, observe or trip nothing. */
  predicate Quiet(log: seq<Event>) {
    forall i :: 0 <= i < |log| ==> !log[i].Recorded? && !log[i].Observed? && !log[i].Tripped?
  }

  lemma {:induction false} QuietAppend(a: seq<Event>, b: seq<Event>)
    requires Quiet(b)
    ensures RecordedIn(a + b) == RecordedIn(a) && ObservedIn(a + b) == ObservedIn(a)
    ensures Tripped in a + b <==> Tripped in a
  {
    if b == [] {
      assert a + b == a;
    } else {
      var front, e := b[..|b| - 1], b[|b| - 1];
      assert (a + b)[..|a + b| - 1] == a + front;
      QuietAppend(a, front);
    }
  }

  // ---------- the breakers, shared with the other workers ----------

  /** What another worker, or a live patch, does to a breaker. */
  datatype BreakerCall = Asks(now: int) | Reports(success: bool, now: int) | Forces(now: int)

  datatype BreakerOp = BreakerOp(target: string, call: BreakerCall)

  type Breakers = map<string, Breaker>

  function AfterCall(b: Breaker, call: BreakerCall): Breaker {
    match call
    case Asks(now) => AfterAllow(b, now)
    case Reports(success, now) => if success then AfterSuccess(b) else AfterFailure(b, now)
    case Forces(now) => AfterForce(b, now)
  }

  function AfterOp(bs: Breakers, op: BreakerOp): Breakers {
    if op.target !in bs then bs else bs[op.target := AfterCall(bs[op.target], op.call)]
  }

  /** The breakers after other workers' calls. */
  function OthersOn(bs: Breakers, ops: seq<BreakerOp>): Breakers {
    if ops == [] then bs else AfterOp(OthersOn(bs, ops[..|ops| - 1]), ops[|ops| - 1])
  }

  // ---------- one action ----------

  /** How far an action gets. */
  datatype Reach = NotAllowed | NotAdmitted | NoPermit | NotRouted | Handled

  function Reached(allowed: bool, w: World): Reach {
    if !allowed then NotAllowed
    else if !w.admission.Granted? then NotAdmitted
    else if !w.permit then NoPermit
    else if !w.routed then NotRouted
    else Handled
  }

  /** What an action leaves in the log, when its handler is called `calls` times and moves
      `bytes` bytes. */
  function ActionLog(reach: Reach, w: World, calls: nat, bytes: int): seq<Event> {
    match reach
    case NotAllowed => []
    case NotAdmitted => if w.admission.SafetyRefused? then [Tripped] else []
    case NoPermit => [ReservationTaken, ReservationReleased]
    case NotRouted => [ReservationTaken, PermitTaken, PermitReleased, ReservationReleased]
    case Handled =>
      [ReservationTaken, PermitTaken] + Calls(calls) + [Reconciled(bytes), PermitReleased, ReservationReleased]
  }

  /** The same, event by event. */
  lemma ActionLogSteps(log: seq<Event>, w: World, calls: nat, bytes: int)
    ensures log == log + ActionLog(NotAllowed, w, calls, bytes)
    ensures log + (if w.admission.SafetyRefused? then [Tripped] else [])
            == log + ActionLog(NotAdmitted, w, calls, bytes)
    ensures log + [ReservationTaken] + [ReservationReleased] == log + ActionLog(NoPermit, w, calls, bytes)
    ensures log + [ReservationTaken] + [PermitTaken] + [PermitReleased] + [ReservationReleased]
            == log + ActionLog(NotRouted, w, calls, bytes)
    ensures log + [ReservationTaken] + [PermitTaken] + Calls(calls) + [Reconciled(bytes)] + [PermitReleased]
            + [ReservationReleased]
            == log + ActionLog(Handled, w, calls, bytes)
  {
    hide Calls;
  }

  predicate Stops(reach: Reach, w: World) {
    reach.NotAdmitted? && w.admission.SafetyRefused?
  }

  /** On every path, whatever was taken is given back once and in order. */
  lemma ActionIsOrderly(reach: Reach, w: World, calls: nat, bytes: int, maxRetries: int)
    requires reach.Handled? ==> 0 < calls <= MostCalls(maxRetries)
    ensures Scan(Nothing, ActionLog(reach, w, calls, bytes), maxRetries) == Nothing
    ensures !Stops(reach, w) ==> Quiet(ActionLog(reach, w, calls, bytes))
  {
    match reach
    case Handled =>
      HandledIsOrderly(calls, bytes, maxRetries);
      QuietCalls(calls);
    case NotRouted =>
      ScanFour(ReservationTaken, PermitTaken, PermitReleased, ReservationReleased, Nothing, maxRetries);
    case NoPermit =>
      ScanOne(Nothing, [], ReservationTaken, maxRetries);
      ScanOne(Nothing, [ReservationTaken], ReservationReleased, maxRetries);
      assert [ReservationTaken] + [ReservationReleased] == [ReservationTaken, ReservationReleased];
    case NotAdmitted =>
      ScanOne(Nothing, [], Tripped, maxRetries);
    case NotAllowed =>
  }

  lemma ScanFour(a: Event, b: Event, c: Event, d: Event, h: Holding, maxRetries: int)
    ensures Scan(h, [a, b, c, d], maxRetries)
            == Moves(Moves(Moves(Moves(h, a, maxRetries), b, maxRetries), c, maxRetries), d, maxRetries)
  {
    hide Moves;
    ScanOne(h, [a, b, c], d, maxRetries);
    ScanOne(h, [a, b], c, maxRetries);
    ScanOne(h, [a], b, maxRetries);
    ScanOne(h, [], a, maxRetries);
    assert [a, b, c, d] == [a, b, c] + [d] && [a, b, c] == [a, b] + [c] && [a, b] == [a] + [b] && [a] == [] + [a];
  }

  lemma HandledIsOrderly(calls: nat, bytes: int, maxRetries: int)
    requires 0 < calls <= MostCalls(maxRetries)
    ensures Scan(Nothing, [ReservationTaken, PermitTaken] + Calls(calls)
                          + [Reconciled(bytes), PermitReleased, ReservationReleased], maxRetries) == Nothing
  {
    var taken, given := [ReservationTaken, PermitTaken], [Reconciled(bytes), PermitReleased, ReservationReleased];
    ScanAppend(Nothing, taken + Calls(calls), given, maxRetries);
    ScanAppend(Nothing, taken, Calls(calls), maxRetries);
    ScanCalls(calls, maxRetries);
    ScanOne(Nothing, [ReservationTaken], PermitTaken, maxRetries);
    ScanOne(Nothing, [], ReservationTaken, maxRetries);
    assert taken == [ReservationTaken] + [PermitTaken] && [ReservationTaken] == [] + [ReservationTaken];
    ScanOne(Both(calls), given[..2], given[2], maxRetries);
    ScanOne(Both(calls), given[..1], given[1], maxRetries);
    ScanOne(Both(calls), [], given[0], maxRetries);
    assert given == given[..2] + [given[2]] && given[..2] == given[..1] + [given[1]] && given[..1] == [] + [given[0]];
  }

  lemma {:induction false} QuietCalls(n: nat)
    ensures Quiet(Calls(n))
  {
    if n > 0 {
      QuietCalls(n - 1);
    }
  }

  /** What an action reports. */
  function ActionResult(pa: Planned, reach: Reach, w: World, last: Attempt, more: bool): (Result, Observation) {
    match reach
    case NotAllowed => (SkipResult(pa), NoObservation)
    case NotAdmitted => (if w.admission.SafetyRefused? then SafetyResult(pa) else CancelResult(pa), NoObservation)
    case NoPermit => (CancelResult(pa), NoObservation)
    case NotRouted => (FailureResult(pa, Permanent, "routing.unknown"), NoObservation)
    case Handled => Verdict(pa, last, more)
  }

  // ---------- a whole session ----------

  datatype Exit = SessionOver | Ceiling | GateCancelled | SleepCancelled | SafetyStop | ScriptOver

  /** A target without a breaker is let through. */
  predicate Admits(bs: Breakers, target: string, now: int) {
    target !in bs || Allows(bs[target], now)
  }

  function ReachOf(pa: Planned, w: World, bs: Breakers): Reach {
    Reached(Admits(OthersOn(bs, w.before), pa.target, w.now), w)
  }

  function ResultOf(pa: Planned, w: World, bs: Breakers, maxRetries: int): (Result, Observation) {
    var calls := CallCount(w, maxRetries, 0);
    ActionResult(pa, ReachOf(pa, w, bs), w, w.handler(calls - 1), calls - 1 < maxRetries)
  }

  function LogOf(pa: Planned, w: World, bs: Breakers, maxRetries: int): seq<Event> {
    var res := ResultOf(pa, w, bs, maxRetries).0;
    ActionLog(ReachOf(pa, w, bs), w, CallCount(w, maxRetries, 0), res.bytesIn + res.bytesOut)
  }

  function BreakersAfter(pa: Planned, w: World, bs: Breakers, maxRetries: int): Breakers {
    BreakersTold(bs, pa.target, w, ResultOf(pa, w, bs, maxRetries).0.outcome.Success?)
  }

  function Asked(bs: Breakers, target: string, now: int): Breakers {
    if target !in bs then bs else bs[target := AfterAllow(bs[target], now)]
  }

  function Told(bs: Breakers, target: string, success: bool, now: int): Breakers {
    if target !in bs then bs
    else bs[target := if success then AfterSuccess(bs[target]) else AfterFailure(bs[target], now)]
  }

  /** The breakers over one action: others' calls, its own question, and, if it got that far, others'
      calls again and its own report. */
  function BreakersTold(bs: Breakers, target: string, w: World, success: bool): Breakers {
    var found := OthersOn(bs, w.before);
    var asked := Asked(found, target, w.now);
    if Admits(found, target, w.now) then Ended(asked, target, w, success) else asked
  }

  function Ended(bs: Breakers, target: string, w: World, success: bool): Breakers {
    if w.admission.Granted? && w.permit then Told(OthersOn(bs, w.during), target, success, w.end) else bs
  }

  /** A result goes to the statistics and to the session. */
  function Reported(r: (Result, Observation)): seq<Event> {
    [Recorded(r.0), Observed(r.0, r.1)]
  }

  /** How a session ends, what it leaves in the log, and whether the tripwire is latched then. */
  datatype Course = Course(exit: Exit, log: seq<Event>, tripped: bool)

  /** A session, turn by turn. */
  function Session(script: seq<Turn>, bs: Breakers, tripped: bool, maxRetries: int, ceiling: int, actions: nat): Course
    decreases |script|, 1
  {
    if script == [] then Course(ScriptOver, [], tripped)
    else if !script[0].NextStep? then Course(SessionOver, [], tripped)
    else if actions >= ceiling then Course(Ceiling, [], tripped)
    else if !script[0].gateOpen then Course(GateCancelled, [], tripped)
    else if !script[0].slept then Course(SleepCancelled, [], tripped)
    else match script[0].action
      case None => Session(script[1..], bs, tripped, maxRetries, ceiling, actions)
      case Some((pa, w)) => ActionTurn(script, bs, tripped, maxRetries, ceiling, actions)
  }

  /** A turn that plans an action, and the rest of the session. */
  function ActionTurn(script: seq<Turn>, bs: Breakers, tripped: bool, maxRetries: int, ceiling: int, actions: nat)
    : Course
    requires script != [] && script[0].NextStep? && script[0].action.Some?
    decreases |script|, 0
  {
    var (pa, planned) := script[0].action.value;
    var latched := tripped || planned.latched;
    var w := Met(planned, latched);
    var log := LogOf(pa, w, bs, maxRetries);
    if Stops(ReachOf(pa, w, bs), w) then Course(SafetyStop, log, true)
    else
      var rest := Session(script[1..], BreakersAfter(pa, w, bs, maxRetries), latched, maxRetries, ceiling, actions + 1);
      rest.(log := log + Reported(ResultOf(pa, w, bs, maxRetries)) + rest.log)
  }

  /** A log in which everything taken was given back, and each recorded result was observed. */
  ghost predicate Orderly(log: seq<Event>, maxRetries: int) {
    Scan(Nothing, log, maxRetries) == Nothing && RecordedIn(log) == ObservedIn(log)
  }

  lemma OrderlyAction(log: seq<Event>, reach: Reach, w: World, calls: nat, bytes: int, maxRetries: int)
    requires Orderly(log, maxRetries) && Tripped !in log
    requires reach.Handled? ==> 0 < calls <= MostCalls(maxRetries)
    ensures var l := log + ActionLog(reach, w, calls, bytes);
            && Orderly(l, maxRetries) && RecordedIn(l) == RecordedIn(log)
            && (Tripped in l <==> Stops(reach, w))
            && (Stops(reach, w) ==> l == log + [Tripped])
  {
    var more := ActionLog(reach, w, calls, bytes);
    ActionIsOrderly(reach, w, calls, bytes, maxRetries);
    ScanAppend(Nothing, log, more, maxRetries);
    if Stops(reach, w) {
      assert more == [Tripped];
      assert (log + [Tripped])[..|log|] == log;
    } else {
      QuietAppend(log, more);
    }
  }

  lemma RecordedOne(log: seq<Event>, e: Event)
    ensures RecordedIn(log + [e]) == RecordedIn(log) + if e.Recorded? then [e.res] else []
    ensures ObservedIn(log + [e]) == ObservedIn(log) + if e.Observed? then [e.res] else []
  {
    assert (log + [e])[..|log|] == log;
  }

  lemma OrderlyRecord(log: seq<Event>, res: Result, obs: Observation, maxRetries: int)
    requires Orderly(log, maxRetries)
    ensures var l := log + [Recorded(res)] + [Observed(res, obs)];
            && Orderly(l, maxRetries) && RecordedIn(l) == RecordedIn(log) + [res]
            && (Tripped in l <==> Tripped in log)
  {
    hide Scan, RecordedIn, ObservedIn;
    var l1 := log + [Recorded(res)];
    ScanOne(Nothing, log, Recorded(res), maxRetries);
    ScanOne(Nothing, l1, Observed(res, obs), maxRetries);
    RecordedOne(log, Recorded(res));
    RecordedOne(l1, Observed(res, obs));
  }

  lemma OrderlyStart(maxRetries: int)
    ensures Orderly([], maxRetries) && RecordedIn([]) == []
  {
  }

  /** What is still to come completes the log so far to the whole session's. */
  ghost predicate Continues(whole: Course, log: seq<Event>, rest: Course) {
    whole == rest.(log := log + rest.log)
  }

  lemma Starts(whole: Course)
    ensures Continues(whole, [], whole)
  {
    assert [] + whole.log == whole.log;
  }

  lemma Ends(whole: Course, log: seq<Event>, exit: Exit, tripped: bool)
    requires Continues(whole, log, Course(exit, [], tripped))
    ensures whole == Course(exit, log, tripped)
  {
    assert log + [] == log;
  }

  lemma Stopped(whole: Course, log: seq<Event>, more: seq<Event>)
    requires Continues(whole, log, Course(SafetyStop, more, true))
    ensures whole == Course(SafetyStop, log + more, true)
  {
  }

  lemma Extends(whole: Course, log: seq<Event>, more: seq<Event>, r: (Result, Observation), rest: Course)
    requires Continues(whole, log, rest.(log := more + Reported(r) + rest.log))
    ensures Continues(whole, log + more + Reported(r), rest)
  {
    assert log + (more + Reported(r) + rest.log) == log + more + Reported(r) + rest.log;
  }

  lemma ReportedIs(log: seq<Event>, res: Result, obs: Observation)
    ensures log + [Recorded(res)] + [Observed(res, obs)] == log + Reported((res, obs))
  {
  }

  lemma NoTurnsLeft(script: seq<Turn>, bs: Breakers, tripped: bool, maxRetries: int, ceiling: int, actions: nat)
    ensures Session(script[|script|..], bs, tripped, maxRetries, ceiling, actions) == Course(ScriptOver, [], tripped)
  {
  }

  /** One turn of the specification. */
  lemma SessionTurn(script: seq<Turn>, i: nat, bs: Breakers, tripped: bool, maxRetries: int, ceiling: int, actions: nat)
    requires i < |script|
    ensures var s := Session(script[i..], bs, tripped, maxRetries, ceiling, actions);
            var turn, later := script[i], script[i + 1..];
            if !turn.NextStep? then s == Course(SessionOver, [], tripped)
            else if actions >= ceiling then s == Course(Ceiling, [], tripped)
            else if !turn.gateOpen then s == Course(GateCancelled, [], tripped)
            else if !turn.slept then s == Course(SleepCancelled, [], tripped)
            else match turn.action
              case None => s == Session(later, bs, tripped, maxRetries, ceiling, actions)
              case Some((pa, planned)) =>
                var latched := tripped || planned.latched;
                var w := Met(planned, latched);
                var log := LogOf(pa, w, bs, maxRetries);
                if Stops(ReachOf(pa, w, bs), w) then s == Course(SafetyStop, log, true)
                else
                  var after := BreakersAfter(pa, w, bs, maxRetries);
                  var rest := Session(later, after, latched, maxRetries, ceiling, actions + 1);
                  s == rest.(log := log + Reported(ResultOf(pa, w, bs, maxRetries)) + rest.log)
  {
    hide LogOf, ResultOf, ReachOf, BreakersAfter, Stops, Met;
    assert script[i..][0] == script[i] && script[i..][1..] == script[i + 1..];
  }

  lemma BreakersAre(pa: Planned, w: World, bs: Breakers, maxRetries: int)
    ensures BreakersAfter(pa, w, bs, maxRetries)
            == BreakersTold(bs, pa.target, w, ResultOf(pa, w, bs, maxRetries).0.outcome.Success?)
  {
  }

  lemma ActionMatches(pa: Planned, w: World, bs: Breakers, maxRetries: int, calls: nat)
    requires calls > 0
    requires ReachOf(pa, w, bs).Handled? ==> CallsMade(w, maxRetries, calls)
    ensures var reach := ReachOf(pa, w, bs);
            var r := ActionResult(pa, reach, w, w.handler(calls - 1), calls - 1 < maxRetries);
            && ResultOf(pa, w, bs, maxRetries) == r
            && LogOf(pa, w, bs, maxRetries) == ActionLog(reach, w, calls, r.0.bytesIn + r.0.bytesOut)
  {
    if ReachOf(pa, w, bs).Handled? {
      CallCountIsLast(w, maxRetries, 0, calls);
    }
  }

  /** A turn of a session, taken as the specification has it. */
  lemma ActionTurnIs(script: seq<Turn>, bs: Breakers, tripped: bool, maxRetries: int, ceiling: int, actions: nat)
    requires script != [] && script[0].NextStep? && script[0].action.Some?
    ensures var (pa, planned) := script[0].action.value;
            var latched := tripped || planned.latched;
            var w := Met(planned, latched);
            var after := BreakersAfter(pa, w, bs, maxRetries);
            var rest := Session(script[1..], after, latched, maxRetries, ceiling, actions + 1);
            ActionTurn(script, bs, tripped, maxRetries, ceiling, actions)
            == if Stops(ReachOf(pa, w, bs), w) then Course(SafetyStop, LogOf(pa, w, bs, maxRetries), true)
               else rest.(log := LogOf(pa, w, bs, maxRetries) + Reported(ResultOf(pa, w, bs, maxRetries)) + rest.log)
  {
  }

  /** No worker ever records a reconnect, whatever its handlers return. */
  lemma {:induction false} NoReconnectRecorded(script: seq<Turn>, bs: Breakers, tripped: bool, maxRetries: int,
                                               ceiling: int, actions: nat)
    ensures forall e :: e in Session(script, bs, tripped, maxRetries, ceiling, actions).log && e.Recorded? ==>
              !e.res.outcome.Reconnect?
    decreases |script|
  {
    if script != [] && script[0].NextStep? && script[0].action.Some? {
      var (pa, planned) := script[0].action.value;
      var latched := tripped || planned.latched;
      var w := Met(planned, latched);
      NoReconnectRecorded(script[1..], BreakersAfter(pa, w, bs, maxRetries), latched, maxRetries, ceiling, actions + 1);
      ActionRecordsNothing(pa, w, bs, maxRetries);
      ResultIsNoReconnect(pa, w, bs, maxRetries);
      ActionTurnIs(script, bs, tripped, maxRetries, ceiling, actions);
      hide LogOf, ResultOf, BreakersAfter, ReachOf, Stops, ActionTurn, Met;
    } else if script != [] {
      NoReconnectRecorded(script[1..], bs, tripped, maxRetries, ceiling, actions);
    }
  }

  /** Once the tripwire is latched the worker calls no handler and takes nothing. */
  lemma {:induction false} NothingAfterLatch(script: seq<Turn>, bs: Breakers, maxRetries: int, ceiling: int,
                                             actions: nat)
    ensures var s := Session(script, bs, true, maxRetries, ceiling, actions);
            && s.tripped
            && forall e :: e in s.log ==> !e.Called? && !e.ReservationTaken? && !e.PermitTaken?
    decreases |script|
  {
    if script != [] && script[0].NextStep? && script[0].action.Some? {
      var (pa, planned) := script[0].action.value;
      var w := Met(planned, true);
      NothingAfterLatch(script[1..], BreakersAfter(pa, w, bs, maxRetries), maxRetries, ceiling, actions + 1);
      LatchedActionTakesNothing(pa, planned, bs, maxRetries);
      ActionTurnIs(script, bs, true, maxRetries, ceiling, actions);
      hide LogOf, ResultOf, BreakersAfter, ReachOf, Stops, ActionTurn, Met;
    } else if script != [] {
      NothingAfterLatch(script[1..], bs, maxRetries, ceiling, actions);
    }
  }

  lemma LatchedActionTakesNothing(pa: Planned, planned: World, bs: Breakers, maxRetries: int)
    ensures forall e :: e in LogOf(pa, Met(planned, true), bs, maxRetries) ==> e.Tripped?
  {
  }

  /** Every action planned finds its breaker refusing. */
  predicate AllBehindBreaker(script: seq<Turn>, bs: Breakers, tripped: bool, maxRetries: int)
    decreases |script|
  {
    script != [] ==>
      if script[0].NextStep? && script[0].action.Some? then
        var (pa, planned) := script[0].action.value;
        var latched := tripped || planned.latched;
        var w := Met(planned, latched);
        ReachOf(pa, w, bs).NotAllowed?
        && AllBehindBreaker(script[1..], BreakersAfter(pa, w, bs, maxRetries), latched, maxRetries)
      else AllBehindBreaker(script[1..], bs, tripped, maxRetries)
  }

  /** The breaker is asked before the tripwire: a worker behind a refusing breaker never comes to
      the safety stop, latched or not, and records skips until something else ends it. */
  lemma {:induction false} BreakerHidesTheLatch(script: seq<Turn>, bs: Breakers, tripped: bool, maxRetries: int,
                                                ceiling: int, actions: nat)
    requires AllBehindBreaker(script, bs, tripped, maxRetries)
    ensures var s := Session(script, bs, tripped, maxRetries, ceiling, actions);
            && !s.exit.SafetyStop?
            && forall e :: e in s.log ==> (e.Recorded? || e.Observed?) && e.res.outcome.Skipped?
    decreases |script|
  {
    if script != [] && script[0].NextStep? && script[0].action.Some? {
      var (pa, planned) := script[0].action.value;
      var latched := tripped || planned.latched;
      var w := Met(planned, latched);
      var after := BreakersAfter(pa, w, bs, maxRetries);
      BreakerHidesTheLatch(script[1..], after, latched, maxRetries, ceiling, actions + 1);
      ActionTurnIs(script, bs, tripped, maxRetries, ceiling, actions);
      SkippedAction(pa, w, bs, maxRetries);
      hide LogOf, ResultOf, BreakersAfter, ReachOf, Stops, ActionTurn, Met;
    } else if script != [] {
      BreakerHidesTheLatch(script[1..], bs, tripped, maxRetries, ceiling, actions);
    }
  }

  lemma SkippedAction(pa: Planned, w: World, bs: Breakers, maxRetries: int)
    requires ReachOf(pa, w, bs).NotAllowed?
    ensures LogOf(pa, w, bs, maxRetries) == [] && !Stops(ReachOf(pa, w, bs), w)
    ensures ResultOf(pa, w, bs, maxRetries).0.outcome.Skipped?
  {
  }

  lemma ActionRecordsNothing(pa: Planned, w: World, bs: Breakers, maxRetries: int)
    ensures forall e :: e in LogOf(pa, w, bs, maxRetries) ==> !e.Recorded?
  {
    QuietCalls(CallCount(w, maxRetries, 0));
  }

  lemma ResultIsNoReconnect(pa: Planned, w: World, bs: Breakers, maxRetries: int)
    ensures !ResultOf(pa, w, bs, maxRetries).0.outcome.Reconnect?
  {
    var calls := CallCount(w, maxRetries, 0);
    VerdictOutcomes(pa, w.handler(calls - 1), calls - 1 < maxRetries);
  }

  // ---------- what an action comes to, in terms of what it met ----------

  /** The breaker is asked first, then whether the context is done, then the tripwire, the caps,
      the semaphore and the registry; each refusal has a result of its own, of no bytes, and only
      the tripwire and the caps stop the session. */
  lemma ActionMeans(pa: Planned, planned: World, tripped: bool, bs: Breakers, maxRetries: int)
    ensures var w, found := Met(planned, tripped), OthersOn(bs, planned.before);
            var refused := pa.target in found && !Allows(found[pa.target], planned.now);
            var (r, obs) := ResultOf(pa, w, bs, maxRetries);
            var reach := ReachOf(pa, w, bs);
            var stops := !refused && !planned.done && (tripped || planned.admission.SafetyRefused?);
            && (Stops(reach, w) <==> stops)
            && (reach.Handled? <==> !refused && !planned.done && !tripped && planned.admission.Granted?
                                    && planned.permit && planned.routed)
            && (!reach.Handled? ==>
                  && obs == NoObservation
                  && r == if refused then Result(pa.protocol, pa.verb, pa.target, Skipped, Transient, "", 0, 0)
                          else if stops then
                            Result(pa.protocol, pa.verb, pa.target, Failure, Safety, "safety.cap", 0, 0)
                          else if planned.done || !planned.admission.Granted? || !planned.permit then
                            Result(pa.protocol, pa.verb, pa.target, Cancelled, Transient, "", 0, 0)
                          else Result(pa.protocol, pa.verb, pa.target, Failure, Permanent, "routing.unknown", 0, 0))
  {
    hide OthersOn, Allows, Verdict, CallCount;
  }

  lemma {:induction false} CallCountIsMade(w: World, maxRetries: int, i: nat)
    ensures forall j: nat | i <= j < CallCount(w, maxRetries, i) - 1 :: GoesOn(w, maxRetries, j)
    ensures !GoesOn(w, maxRetries, CallCount(w, maxRetries, i) - 1)
    decreases if i < maxRetries then maxRetries - i else 0
  {
    if GoesOn(w, maxRetries, i) {
      CallCountIsMade(w, maxRetries, i + 1);
    }
  }

  /** Of a handler's last attempt: a panic is a failure of class Unknown; a success is passed on; a
      temporary failure with retries left means the backoff sleep was cut short; any other failure
      keeps what the handler reported, under its own class unless that is Transient. The bytes it
      reports are the bytes reconciled. */
  lemma HandledMeans(pa: Planned, w: World, bs: Breakers, maxRetries: int)
    requires ReachOf(pa, w, bs).Handled?
    ensures CallsMade(w, maxRetries, CallCount(w, maxRetries, 0))
    ensures var calls := CallCount(w, maxRetries, 0);
            var (r, obs) := ResultOf(pa, w, bs, maxRetries);
            match w.handler(calls - 1)
            case Panics =>
              r == Result(pa.protocol, pa.verb, pa.target, Panicked, Unknown, "panic", 0, 0) && obs == NoObservation
            case Returns(res, seen, err) =>
              var reported := if err.Some? then err.value else res.errClass;
              && obs == seen
              && if err.None? && res.outcome.Success? then r == res
                 else if (reported.Transient? || reported.Unknown?) && calls <= maxRetries then
                   r == Result(pa.protocol, pa.verb, pa.target, Cancelled, Transient, "", 0, 0)
                 else if res.protocol == "" then
                   r == Result(pa.protocol, pa.verb, pa.target, Failure, reported, "", 0, 0)
                 else
                   r == Result(res.protocol, res.action, res.target, Failure,
                               if res.errClass.Transient? then reported else res.errClass,
                               res.errCode, res.bytesIn, res.bytesOut)
    ensures var r := ResultOf(pa, w, bs, maxRetries).0;
            Reconciled(r.bytesIn + r.bytesOut) in LogOf(pa, w, bs, maxRetries)
  {
    CallCountIsMade(w, maxRetries, 0);
    hide OthersOn, Allows, CallCount, Calls;
  }

  lemma {:induction false} OthersKeepTargets(bs: Breakers, ops: seq<BreakerOp>)
    ensures OthersOn(bs, ops).Keys == bs.Keys
  {
    if ops != [] {
      OthersKeepTargets(bs, ops[..|ops| - 1]);
    }
  }

  /** What the target's breaker hears of an action: refused, it is left alone; turned away by the
      limiter or the semaphore, the action never reports, even as a probe; otherwise a success
      closes it and anything else counts as a failure. */
  lemma BreakerHears(pa: Planned, w: World, bs: Breakers, maxRetries: int)
    requires pa.target in bs
    ensures var found, reach := OthersOn(bs, w.before), ReachOf(pa, w, bs);
            var asked := if pa.target in found && !reach.NotAllowed? && found[pa.target].state.Open? then
                           found[pa.target := found[pa.target].(state := HalfOpen)]
                         else found;
            var heard := OthersOn(asked, w.during);
            && pa.target in heard
            && BreakersAfter(pa, w, bs, maxRetries)
               == if reach.NotAllowed? || reach.NotAdmitted? || reach.NoPermit? then asked
                  else heard[pa.target := if ResultOf(pa, w, bs, maxRetries).0.outcome.Success? then
                                            heard[pa.target].(state := Closed, fails := 0)
                                          else AfterFailure(heard[pa.target], w.end)]
  {
    var found := OthersOn(bs, w.before);
    OthersKeepTargets(bs, w.before);
    OthersKeepTargets(Asked(found, pa.target, w.now), w.during);
    hide OthersOn, ResultOf, AfterFailure;
    assert found[pa.target := found[pa.target]] == found;
  }

  // ---------- how a session ends ----------

  /** The actions planned in some turns. */
  function PlannedIn(script: seq<Turn>): nat {
    if script == [] then 0
    else (if script[0].NextStep? && script[0].action.Some? then 1 else 0) + PlannedIn(script[1..])
  }

  lemma {:induction false} RecordedAppend(a: seq<Event>, b: seq<Event>)
    ensures RecordedIn(a + b) == RecordedIn(a) + RecordedIn(b)
  {
    if b == [] {
      assert a + b == a;
    } else {
      assert (a + b)[..|a + b| - 1] == a + b[..|b| - 1];
      RecordedAppend(a, b[..|b| - 1]);
    }
  }

  predicate Passes(turn: Turn) {
    turn.NextStep? && turn.gateOpen && turn.slept
  }

  /** The first turn that does not go through decides how the session ends, asked in this order:
      whether there is a step at all, the ceiling, the gate, the sleep. Every action planned
      before it is recorded. */
  ghost predicate EndsAt(script: seq<Turn>, s: Course, ceiling: int, actions: nat, k: nat) {
    && k <= |script| && (forall j | 0 <= j < k :: Passes(script[j]))
    && |RecordedIn(s.log)| == PlannedIn(script[..k])
    && (k > 0 ==> actions + PlannedIn(script[..k - 1]) < ceiling)
    && match s.exit
       case ScriptOver => k == |script|
       case SessionOver => k < |script| && !script[k].NextStep?
       case Ceiling => k < |script| && script[k].NextStep? && actions + PlannedIn(script[..k]) >= ceiling
       case GateCancelled =>
         && k < |script| && script[k].NextStep? && actions + PlannedIn(script[..k]) < ceiling && !script[k].gateOpen
       case SleepCancelled =>
         && k < |script| && script[k].NextStep? && actions + PlannedIn(script[..k]) < ceiling && script[k].gateOpen
         && !script[k].slept
       case SafetyStop =>
         && k < |script| && Passes(script[k]) && actions + PlannedIn(script[..k]) < ceiling && script[k].action.Some?
         && !script[k].action.value.1.done && s.tripped
  }

  lemma PlannedOneMore(script: seq<Turn>, k: nat)
    requires k < |script|
    ensures PlannedIn(script[..k + 1])
            == (if script[0].NextStep? && script[0].action.Some? then 1 else 0) + PlannedIn(script[1..][..k])
    ensures PlannedIn(script[..0]) == 0
  {
    var front := script[..k + 1];
    assert front[0] == script[0] && front[1..] == script[1..][..k] && script[..0] == [];
  }

  lemma EndsOneLater(script: seq<Turn>, rest: Course, s: Course, ceiling: int, actions: nat, k: nat)
    requires script != [] && Passes(script[0]) && actions < ceiling
    requires var more := if script[0].action.Some? then 1 else 0;
             && EndsAt(script[1..], rest, ceiling, actions + more, k)
             && |RecordedIn(s.log)| == more + |RecordedIn(rest.log)|
    requires s.exit == rest.exit && s.tripped == rest.tripped
    ensures EndsAt(script, s, ceiling, actions, k + 1)
  {
    hide PlannedIn, RecordedIn;
    PlannedOneMore(script, k);
    if k > 0 {
      PlannedOneMore(script, k - 1);
    }
    assert forall j | 0 < j <= |script| - 1 :: script[j] == script[1..][j - 1];
  }

  lemma {:induction false} SessionEnds(script: seq<Turn>, bs: Breakers, tripped: bool, maxRetries: int, ceiling: int,
                                       actions: nat) returns (k: nat)
    ensures EndsAt(script, Session(script, bs, tripped, maxRetries, ceiling, actions), ceiling, actions, k)
    decreases |script|
  {
    k := 0;
    var s := Session(script, bs, tripped, maxRetries, ceiling, actions);
    if script != [] && Passes(script[0]) && actions < ceiling {
      if script[0].action.None? {
        k := SessionEnds(script[1..], bs, tripped, maxRetries, ceiling, actions);
        EndsOneLater(script, s, s, ceiling, actions, k);
        k := k + 1;
      } else {
        var (pa, planned) := script[0].action.value;
        var latched := tripped || planned.latched;
        var w := Met(planned, latched);
        ActionTurnIs(script, bs, tripped, maxRetries, ceiling, actions);
        ActionMeans(pa, planned, latched, bs, maxRetries);
        ActionAdds(pa, w, bs, maxRetries);
        hide EndsAt, LogOf, ResultOf, BreakersAfter, ReachOf, Stops, ActionTurn, Met, Reported, RecordedIn;
        if !Stops(ReachOf(pa, w, bs), w) {
          var after := BreakersAfter(pa, w, bs, maxRetries);
          k := SessionEnds(script[1..], after, latched, maxRetries, ceiling, actions + 1);
          var rest := Session(script[1..], after, latched, maxRetries, ceiling, actions + 1);
          RecordedAppend(LogOf(pa, w, bs, maxRetries) + Reported(ResultOf(pa, w, bs, maxRetries)), rest.log);
          EndsOneLater(script, rest, s, ceiling, actions, k);
          k := k + 1;
        } else {
          StopsAtOnce(script, s, ceiling, actions);
        }
      }
    } else {
      EndsAtOnce(script, bs, tripped, maxRetries, ceiling, actions);
    }
  }

  lemma ActionAdds(pa: Planned, w: World, bs: Breakers, maxRetries: int)
    ensures |RecordedIn(LogOf(pa, w, bs, maxRetries))| == 0
    ensures |RecordedIn(LogOf(pa, w, bs, maxRetries) + Reported(ResultOf(pa, w, bs, maxRetries)))| == 1
  {
    var log, r := LogOf(pa, w, bs, maxRetries), ResultOf(pa, w, bs, maxRetries);
    ActionRecordsNothing(pa, w, bs, maxRetries);
    hide LogOf, ResultOf, RecordedIn;
    NothingRecorded(log);
    RecordedOne(log, Recorded(r.0));
    RecordedOne(log + [Recorded(r.0)], Observed(r.0, r.1));
    ReportedIs(log, r.0, r.1);
  }

  lemma {:induction false} NothingRecorded(log: seq<Event>)
    requires forall e :: e in log ==> !e.Recorded?
    ensures RecordedIn(log) == []
  {
    if log != [] {
      NothingRecorded(log[..|log| - 1]);
    }
  }

  lemma StopsAtOnce(script: seq<Turn>, s: Course, ceiling: int, actions: nat)
    requires script != [] && Passes(script[0]) && actions < ceiling && script[0].action.Some?
    requires !script[0].action.value.1.done && s.exit.SafetyStop? && s.tripped && RecordedIn(s.log) == []
    ensures EndsAt(script, s, ceiling, actions, 0)
  {
  }

  lemma EndsAtOnce(script: seq<Turn>, bs: Breakers, tripped: bool, maxRetries: int, ceiling: int, actions: nat)
    requires script != [] ==> !Passes(script[0]) || actions >= ceiling
    ensures EndsAt(script, Session(script, bs, tripped, maxRetries, ceiling, actions), ceiling, actions, 0)
  {
  }

  // ---------- the worker ----------

  class Worker {
    const breakers: map<string, CircuitBreaker>
    const maxRetries: int
    const sessionMaxActions: int
    var log: seq<Event>
    var tripped: bool

    constructor (breakers: map<string, CircuitBreaker>, maxRetries: int, sessionMaxActions: int, tripped: bool)
      ensures log == [] && this.breakers == breakers && this.tripped == tripped
      ensures this.maxRetries == maxRetries && this.sessionMaxActions == sessionMaxActions
    {
      this.breakers, this.maxRetries, this.sessionMaxActions := breakers, maxRetries, sessionMaxActions;
      log, this.tripped := [], tripped;
    }

    /** The handler is called until it succeeds, panics, fails for good, runs out of retries or
        its backoff sleep is cut short. */
    method DoWithRetry(pa: Planned, w: World) returns (res: Result, obs: Observation, ghost calls: nat)
      modifies `log
      ensures calls > 0 && CallsMade(w, maxRetries, calls) && log == old(log) + Calls(calls)
      ensures (res, obs) == Verdict(pa, w.handler(calls - 1), calls - 1 < maxRetries)
      ensures forall i: nat | i < calls - 1 :: Temporary(w.handler(i)) && w.slept(i)
      ensures calls == 1 || calls - 1 <= maxRetries
      ensures Final(w.handler(calls - 1)) || calls - 1 >= maxRetries || !w.slept(calls - 1)
    {
      hide Temporary, Final;
      var attempt: nat := 0;
      while true
        invariant forall i: nat :: i < attempt ==> GoesOn(w, maxRetries, i)
        invariant attempt == 0 || attempt <= maxRetries
        invariant log == old(log) + Calls(attempt)
        decreases if maxRetries < attempt then 0 else maxRetries - attempt
      {
        log := log + [Called(attempt)];
        calls := attempt + 1;
        var a := w.handler(attempt);
        if a.Panics? {
          RetriesMean(w, maxRetries, calls);
          return PanicResult(pa), NoObservation, calls;
        }
        var class_ := Classify(a.res, a.err);
        if a.err.None? && a.res.outcome.Success? {
          RetriesMean(w, maxRetries, calls);
          return a.res, a.obs, calls;
        }
        var retryable := class_.Transient? || class_.Unknown?;
        if !retryable || attempt >= maxRetries {
          RetriesMean(w, maxRetries, calls);
          return FailedResult(pa, a.res, class_), a.obs, calls;
        }
        if !w.slept(attempt) {
          RetriesMean(w, maxRetries, calls);
          return CancelResult(pa), a.obs, calls;
        }
        attempt := attempt + 1;
      }
    }

    /** Each target has a breaker of its own. */
    ghost predicate Valid() {
      forall x, y :: x in breakers && y in breakers && x != y ==> breakers[x] != breakers[y]
    }

    ghost function BreakersView(): Breakers
      reads breakers.Values
    {
      map x | x in breakers :: breakers[x].View()
    }

    lemma BreakersSeen()
      ensures BreakersView().Keys == breakers.Keys
      ensures forall x :: x in breakers ==> BreakersView()[x] == breakers[x].View()
    {
    }

    method Allow(target: string, now: int) returns (ok: bool)
      requires Valid()
      modifies breakers.Values
      ensures ok == Admits(old(BreakersView()), target, now)
      ensures BreakersView() == Asked(old(BreakersView()), target, now)
    {
      hide Allows, AfterAllow;
      ok := true;
      if target in breakers {
        ok := breakers[target].Allow(now);
      }
    }

    method Interfere(ops: seq<BreakerOp>)
      requires Valid()
      modifies breakers.Values
      ensures BreakersView() == OthersOn(old(BreakersView()), ops)
    {
      hide BreakersView, AfterOp;
      ghost var bs := BreakersView();
      assert ops[..0] == [];
      for i := 0 to |ops|
        invariant BreakersView() == OthersOn(bs, ops[..i])
      {
        assert ops[..i + 1][..i] == ops[..i] && ops[..i + 1][i] == ops[i];
        OneCall(ops[i]);
      }
      assert ops[..|ops|] == ops;
    }

    method OneCall(op: BreakerOp)
      requires Valid()
      modifies breakers.Values
      ensures BreakersView() == AfterOp(old(BreakersView()), op)
    {
      hide AfterAllow, AfterSuccess, AfterFailure, AfterForce;
      if op.target in breakers {
        match op.call
        case Asks(now) =>
          var ok := breakers[op.target].Allow(now);
        case Reports(success, now) =>
          if success {
            breakers[op.target].RecordSuccess();
          } else {
            breakers[op.target].RecordFailure(now);
          }
        case Forces(now) => breakers[op.target].ForceOpen(now);
      }
    }

    method RecordBreaker(target: string, success: bool, now: int)
      requires Valid()
      modifies breakers.Values
      ensures BreakersView() == Told(old(BreakersView()), target, success, now)
    {
      hide AfterSuccess, AfterFailure;
      if target in breakers {
        if success {
          breakers[target].RecordSuccess();
        } else {
          breakers[target].RecordFailure(now);
        }
      }
    }

    /** The part of an action under reservation and permit. */
    method Serve(pa: Planned, w: World) returns (res: Result, obs: Observation, ghost calls: nat)
      requires Valid()
      modifies `log, breakers.Values
      ensures calls > 0 && (w.routed ==> CallsMade(w, maxRetries, calls))
      ensures w.routed ==> log == old(log) + Calls(calls) + [Reconciled(res.bytesIn + res.bytesOut)]
      ensures !w.routed ==> log == old(log)
      ensures (res, obs) == if w.routed then Verdict(pa, w.handler(calls - 1), calls - 1 < maxRetries)
                            else (FailureResult(pa, Permanent, "routing.unknown"), NoObservation)
      ensures BreakersView() == Told(OthersOn(old(BreakersView()), w.during), pa.target, res.outcome.Success?, w.end)
    {
      hide CallsMade, Verdict, Calls, BreakersView, Told, OthersOn;
      calls := 1;
      if !w.routed {
        res, obs := FailureResult(pa, Permanent, "routing.unknown"), NoObservation;
      } else {
        res, obs, calls := DoWithRetry(pa, w);
        log := log + [Reconciled(res.bytesIn + res.bytesOut)];
      }
      Interfere(w.during);
      RecordBreaker(pa.target, res.outcome.Success?, w.end);
    }

    /** An action the breaker let through, with its two deferred releases. */
    method Proceed(pa: Planned, w: World)
      returns (res: Result, obs: Observation, stop: bool, ghost reach: Reach, ghost calls: nat)
      requires Valid()
      modifies `log, `tripped, breakers.Values
      ensures reach == Reached(true, w) && (reach.Handled? ==> CallsMade(w, maxRetries, calls))
      ensures calls > 0 && log == old(log) + ActionLog(reach, w, calls, res.bytesIn + res.bytesOut)
      ensures (res, obs) == ActionResult(pa, reach, w, w.handler(calls - 1), calls - 1 < maxRetries)
      ensures stop == Stops(reach, w) && tripped == (old(tripped) || stop)
      ensures BreakersView() == Ended(old(BreakersView()), pa.target, w, res.outcome.Success?)
    {
      hide CallsMade, Verdict, Calls, BreakersView, Told, OthersOn, ActionLog;
      calls := 1;
      ghost var was := log;
      if !w.admission.Granted? {
        reach, stop := NotAdmitted, w.admission.SafetyRefused?;
        if stop {
          tripped := true;
          log := log + [Tripped];
          res, obs := SafetyResult(pa), NoObservation;
        } else {
          res, obs := CancelResult(pa), NoObservation;
        }
        ActionLogSteps(was, w, calls, res.bytesIn + res.bytesOut);
        return;
      }
      stop := false;
      log := log + [ReservationTaken];
      if !w.permit {
        reach := NoPermit;
        log := log + [ReservationReleased];
        res, obs := CancelResult(pa), NoObservation;
        ActionLogSteps(was, w, calls, res.bytesIn + res.bytesOut);
        return;
      }
      log := log + [PermitTaken];
      reach := if w.routed then Handled else NotRouted;
      res, obs, calls := Serve(pa, w);
      log := log + [PermitReleased];
      log := log + [ReservationReleased];
      ActionLogSteps(was, w, calls, res.bytesIn + res.bytesOut);
    }

    /** One action, open breaker or not. */
    method RunAction(pa: Planned, w: World)
      returns (res: Result, obs: Observation, stop: bool, ghost reach: Reach, ghost calls: nat)
      requires Valid()
      modifies `log, `tripped, breakers.Values
      ensures reach == ReachOf(pa, w, old(BreakersView()))
      ensures reach.Handled? ==> CallsMade(w, maxRetries, calls)
      ensures calls > 0 && log == old(log) + ActionLog(reach, w, calls, res.bytesIn + res.bytesOut)
      ensures (res, obs) == ActionResult(pa, reach, w, w.handler(calls - 1), calls - 1 < maxRetries)
      ensures stop == Stops(reach, w) && tripped == (old(tripped) || stop)
      ensures BreakersView() == BreakersTold(old(BreakersView()), pa.target, w, res.outcome.Success?)
    {
      hide CallsMade, Verdict, Calls, BreakersView, Asked, Admits, Ended, OthersOn;
      Interfere(w.before);
      var allowed := Allow(pa.target, w.now);
      if !allowed {
        return SkipResult(pa), NoObservation, false, NotAllowed, 1;
      }
      res, obs, stop, reach, calls := Proceed(pa, w);
    }

    /** An action and, unless it stops the session, its recording and observation. */
    method Perform(pa: Planned, w: World) returns (stop: bool)
      requires Valid() && Orderly(log, maxRetries) && Tripped !in log
      modifies `log, `tripped, breakers.Values
      ensures stop == Stops(ReachOf(pa, w, old(BreakersView())), w) && tripped == (old(tripped) || stop)
      ensures BreakersView() == BreakersAfter(pa, w, old(BreakersView()), maxRetries)
      ensures stop ==> log == old(log) + LogOf(pa, w, old(BreakersView()), maxRetries)
      ensures !stop ==> log == old(log) + LogOf(pa, w, old(BreakersView()), maxRetries)
                               + Reported(ResultOf(pa, w, old(BreakersView()), maxRetries))
      ensures Orderly(log, maxRetries) && |RecordedIn(log)| == old(|RecordedIn(log)|) + if stop then 0 else 1
      ensures stop <==> Tripped in log
      ensures stop ==> log == old(log) + [Tripped]
    {
      hide *;
      ghost var bs, was := BreakersView(), log;
      BreakersSeen();
      var res, obs, halted, reach, calls := RunAction(pa, w);
      stop := halted;
      BreakersSeen();
      if reach.Handled? {
        CallsBounded(w, maxRetries, calls);
      }
      ActionMatches(pa, w, bs, maxRetries, calls);
      BreakersAre(pa, w, bs, maxRetries);
      OrderlyAction(was, reach, w, calls, res.bytesIn + res.bytesOut, maxRetries);
      if stop {
        return;
      }
      ghost var acted := log;
      OrderlyRecord(acted, res, obs, maxRetries);
      log := log + [Recorded(res)];
      log := log + [Observed(res, obs)];
      ReportedIs(acted, res, obs);
    }

    /** The session, turn by turn, ends and logs as specified. It records and observes one
        result per action, at most the ceiling, and whatever ends it, nothing is still held;
        only a safety stop trips, and nothing follows it. */
    method RunWorker(script: seq<Turn>) returns (exit: Exit, actions: int)
      requires Valid() && log == []
      modifies `log, `tripped, breakers.Values
      ensures Course(exit, log, tripped)
              == Session(script, old(BreakersView()), old(tripped), maxRetries, sessionMaxActions, 0)
      ensures Orderly(log, maxRetries)
      ensures actions == |RecordedIn(log)| && actions <= (if sessionMaxActions < 0 then 0 else sessionMaxActions)
      ensures exit.SafetyStop? <==> Tripped in log
      ensures exit.SafetyStop? ==> log[|log| - 1] == Tripped && Tripped !in log[..|log| - 1]
      ensures old(tripped) || exit.SafetyStop? ==> tripped
    {
      hide *;
      actions := 0;
      var i := 0;
      OrderlyStart(maxRetries);
      ghost var whole := Session(script, BreakersView(), tripped, maxRetries, sessionMaxActions, 0);
      ghost var bs := BreakersView();
      assert script[0..] == script;
      Starts(whole);
      while i < |script|
        invariant 0 <= i <= |script| && actions >= 0
        invariant Orderly(log, maxRetries) && Tripped !in log && (old(tripped) ==> tripped)
        invariant actions == |RecordedIn(log)| && actions <= (if sessionMaxActions < 0 then 0 else sessionMaxActions)
        invariant bs == BreakersView()
        invariant Continues(whole, log, Session(script[i..], bs, tripped, maxRetries, sessionMaxActions, actions))
      {
        var turn := script[i];
        SessionTurn(script, i, bs, tripped, maxRetries, sessionMaxActions, actions);
        i := i + 1;
        if !turn.NextStep? {
          Ends(whole, log, SessionOver, tripped);
          return SessionOver, actions;
        }
        if actions >= sessionMaxActions {
          Ends(whole, log, Ceiling, tripped);
          return Ceiling, actions;
        }
        if !turn.gateOpen {
          Ends(whole, log, GateCancelled, tripped);
          return GateCancelled, actions;
        }
        if !turn.slept {
          Ends(whole, log, SleepCancelled, tripped);
          return SleepCancelled, actions;
        }
        if turn.action.None? {
          continue;
        }
        var (pa, planned) := turn.action.value;
        tripped := tripped || planned.latched;
        var w := Met(planned, tripped);
        ghost var was, after := log, BreakersAfter(pa, w, bs, maxRetries);
        ghost var rest := Session(script[i..], after, tripped, maxRetries, sessionMaxActions, actions + 1);
        var stop := Perform(pa, w);
        if stop {
          Stopped(whole, was, LogOf(pa, w, bs, maxRetries));
          return SafetyStop, actions;
        }
        Extends(whole, was, LogOf(pa, w, bs, maxRetries), ResultOf(pa, w, bs, maxRetries), rest);
        actions := actions + 1;
        bs := BreakersView();
      }
      NoTurnsLeft(script, bs, tripped, maxRetries, sessionMaxActions, actions);
      Ends(whole, log, ScriptOver, tripped);
      return ScriptOver, actions;
    }
  }
}
