/** The per-target circuit breaker, and one breaker shared by all the workers of a run. */
module CircuitBreaking {

  datatype Circuit = Closed | Open | HalfOpen

  datatype Breaker = Breaker(state: Circuit, fails: int, openedAt: int, threshold: int, cooldown: int)

  predicate Allows(b: Breaker, now: int) {
    b.state.Closed? || (b.state.Open? && now - b.openedAt >= b.cooldown)
  }

  function AfterAllow(b: Breaker, now: int): Breaker {
    if b.state.Open? && Allows(b, now) then b.(state := HalfOpen) else b
  }

  function AfterSuccess(b: Breaker): Breaker {
    b.(state := Closed, fails := 0)
  }

  function AfterForce(b: Breaker, now: int): Breaker {
    b.(state := Open, openedAt := now)
  }

  function AfterFailure(b: Breaker, now: int): Breaker {
    if b.state.HalfOpen? then AfterForce(b, now)
    else
      var c := b.(fails := b.fails + 1);
      if c.fails >= c.threshold then AfterForce(c, now) else c
  }

  /** Consecutive failures at the given instants. */
  function Failures(b: Breaker, times: seq<int>): Breaker {
    if times == [] then b else AfterFailure(Failures(b, times[..|times| - 1]), times[|times| - 1])
  }

  /** A breaker opens with the threshold's failure in a row, not before, and the cooldown counts
      from the latest failure. */
  lemma {:induction false} OpensAtThreshold(b: Breaker, times: seq<int>)
    requires b.state.Closed? && b.fails == 0 && b.threshold >= 1
    ensures var c := Failures(b, times);
            && c.fails == |times| && c.threshold == b.threshold && c.cooldown == b.cooldown
            && c.state == (if |times| >= b.threshold then Open else Closed)
            && (c.state.Open? ==> c.openedAt == times[|times| - 1])
            && forall now :: Allows(c, now) <==>
                 |times| < b.threshold || now - times[|times| - 1] >= b.cooldown
  {
    if times != [] {
      OpensAtThreshold(b, times[..|times| - 1]);
    }
  }

  /** An open breaker lets one probe through once the cooldown is over, and nothing else until the
      probe's verdict. A failed probe opens it again and starts the cooldown anew; a successful
      one closes it, and then it takes the threshold's failures in a row to open it. */
  lemma ProbeDecides(b: Breaker, asked: int, ended: int, later: seq<int>, now: int)
    requires b.state.Open? && asked - b.openedAt >= b.cooldown && b.threshold >= 1
    ensures Allows(b, asked)
    ensures var probing := AfterAllow(b, asked);
            && !Allows(probing, now)
            && AfterFailure(probing, ended) == Breaker(Open, b.fails, ended, b.threshold, b.cooldown)
            && (Allows(AfterFailure(probing, ended), now) <==> now - ended >= b.cooldown)
            && AfterSuccess(probing) == Breaker(Closed, 0, b.openedAt, b.threshold, b.cooldown)
            && Failures(AfterSuccess(probing), later).state == (if |later| >= b.threshold then Open else Closed)
    ensures Allows(b, now) <==> now - b.openedAt >= b.cooldown
  {
    OpensAtThreshold(AfterSuccess(AfterAllow(b, asked)), later);
  }

  // ---------- shared by all workers ----------

  /** `inFlight` counts the actions let through that have not ended. An action ends by a report, or,
      when the limiter or the semaphore turns it away, without one; in the code that takes a done
      context, a cap breach (which latches the tripwire) or a tripwire latched already. */
  datatype Shared = Shared(b: Breaker, inFlight: nat)

  datatype Op = Ask(now: int) | Report(success: bool, now: int) | Drop | ForceOpen(now: int)

  function Step(s: Shared, op: Op): Shared {
    match op
    case Ask(now) => Shared(AfterAllow(s.b, now), if Allows(s.b, now) then s.inFlight + 1 else s.inFlight)
    case Report(success, now) =>
      if s.inFlight == 0 then s
      else Shared(if success then AfterSuccess(s.b) else AfterFailure(s.b, now), s.inFlight - 1)
    case Drop => if s.inFlight == 0 then s else s.(inFlight := s.inFlight - 1)
    case ForceOpen(now) => s.(b := AfterForce(s.b, now))
  }

  function Run(s: Shared, ops: seq<Op>): Shared
    decreases |ops|
  {
    if ops == [] then s else Run(Step(s, ops[0]), ops[1..])
  }

  predicate Unforced(ops: seq<Op>) {
    forall i :: 0 <= i < |ops| ==> !ops[i].ForceOpen?
  }

  /** Waiting for the verdict of a probe nobody is carrying any more. */
  predicate ProbeLost(s: Shared) {
    s.b.state.HalfOpen? && s.inFlight == 0
  }

  /** A probe is lost exactly by the last action in flight on a half-open breaker ending without
      a report, and found again only by forcing the breaker open. */
  lemma ProbeLostIff(s: Shared, op: Op)
    ensures ProbeLost(Step(s, op)) <==>
              (ProbeLost(s) && !op.ForceOpen?) || (op.Drop? && s.b.state.HalfOpen? && s.inFlight == 1)
    ensures ProbeLost(s) && !op.ForceOpen? ==> Step(s, op) == s
  {
  }

  lemma {:induction false} LostForGood(s: Shared, ops: seq<Op>)
    requires ProbeLost(s) && Unforced(ops)
    ensures Run(s, ops) == s
    decreases |ops|
  {
    if ops != [] {
      ProbeLostIff(s, ops[0]);
      LostForGood(s, ops[1..]);
    }
  }

  /** Unless it is forced open, a breaker refuses every later action of every worker exactly when
      its probe is lost. */
  ghost predicate RefusesForGood(s: Shared) {
    forall ops, now :: Unforced(ops) ==> !Allows(Run(s, ops).b, now)
  }

  lemma RefusesForGoodIff(s: Shared)
    ensures RefusesForGood(s) <==> ProbeLost(s)
  {
    if ProbeLost(s) {
      forall ops, now | Unforced(ops)
        ensures !Allows(Run(s, ops).b, now)
      {
        LostForGood(s, ops);
      }
    } else if s.b.state.HalfOpen? {
      var ops := [Report(true, 0)];
      assert ops[1..] == [];
      assert Run(s, ops) == Run(Step(s, ops[0]), ops[1..]) == Step(s, ops[0]);
      assert Unforced(ops) && Allows(Run(s, ops).b, 0);
    } else {
      assert Unforced([]) && Run(s, []) == s && Allows(s.b, s.b.openedAt + s.b.cooldown);
    }
  }

  /** A new breaker can come to that: it opens, its probe is let through, and the probe ends
      without a report. */
  lemma ProbeCanBeLost()
    ensures var s := Shared(Breaker(Closed, 0, 0, 1, 30), 0);
            ProbeLost(Run(s, [Ask(0), Report(false, 0), Ask(30), Drop]))
  {
    var s0 := Shared(Breaker(Closed, 0, 0, 1, 30), 0);
    var s1 := Step(s0, Ask(0));
    var s2 := Step(s1, Report(false, 0));
    var s3 := Step(s2, Ask(30));
    var ops := [Ask(0), Report(false, 0), Ask(30), Drop];
    assert ops[1..] == [Report(false, 0), Ask(30), Drop] && ops[1..][1..] == [Ask(30), Drop];
    assert [Ask(30), Drop][1..] == [Drop] && [Drop][1..] == [];
    assert Run(s3, [Drop]) == Run(Step(s3, Drop), []);
    assert Run(s0, ops) == Run(s1, ops[1..]) == Run(s2, [Ask(30), Drop]) == Run(s3, [Drop]);
  }

  // ---------- the code ----------

  class CircuitBreaker {
    const threshold: int
    const cooldown: int
    var state: Circuit
    var fails: int
    var openedAt: int

    function View(): Breaker
      reads this
    {
      Breaker(state, fails, openedAt, threshold, cooldown)
    }

    constructor (threshold: int, cooldown: int)
      ensures View() == Breaker(Closed, 0, 0, if threshold < 1 then 1 else threshold, cooldown)
    {
      this.threshold := if threshold < 1 then 1 else threshold;
      this.cooldown, state, fails, openedAt := cooldown, Closed, 0, 0;
    }

    method Allow(now: int) returns (ok: bool)
      modifies this
      ensures ok == Allows(old(View()), now) && View() == AfterAllow(old(View()), now)
    {
      match state
      case Closed => return true;
      case HalfOpen => return false;
      case Open =>
        if now - openedAt >= cooldown {
          state := HalfOpen;
          return true;
        }
        return false;
    }

    method RecordSuccess()
      modifies this
      ensures View() == AfterSuccess(old(View()))
    {
      state, fails := Closed, 0;
    }

    method RecordFailure(now: int)
      modifies this
      ensures View() == AfterFailure(old(View()), now)
    {
      if state == HalfOpen {
        state, openedAt := Open, now;
        return;
      }
      fails := fails + 1;
      if fails >= threshold {
        state, openedAt := Open, now;
      }
    }

    method ForceOpen(now: int)
      modifies this
      ensures View() == AfterForce(old(View()), now)
    {
      state, openedAt := Open, now;
    }
  }
}
